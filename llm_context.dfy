/**
  The context text that `sendToLLM` builds before each call: the three most
  recently updated projects and the five most recently updated actions, each
  rendered as a numbered block of `label: value` lines, spliced into a fixed
  template after the user's extra information.

  Swift builds the `label: value` lines by reflection over the record's stored
  properties; the model lists the properties explicitly, in declaration order,
  with the labels reflection yields (the Swift property names).
*/
module LlmContext {
  import opened Text
  import opened Json
  import opened Models
  import opened Sorting

  const ProjectLimit: nat := 3
  const ActionLimit: nat := 5

  const ProjectsHeader: string := "--- project list and project-purpose ---"
  const ActionsHeader: string := "--- actions data , decending by time ---"

  /** The label reflection gives each `ProjectMeta` property. */
  function ProjectLabel(f: ProjectField): string
  {
    match f
    case Id => "id"
    case ProjectName => "projectName"
    case Focus => "focus"
    case TargetAudience => "targetAudience"
    case Description => "description"
    case CurrentAction => "currentAction"
    case NextAction => "nextAction"
    case Skills => "skills"
    case CreatedAt => "createdAt"
    case UpdatedAt => "updatedAt"
  }

  /** The label reflection gives each `ProjectAction` property. */
  function ActionLabel(f: ActionField): string
  {
    match f
    case Id => "id"
    case ProjectId => "projectId"
    case Description => "description"
    case Status => "status"
    case Owner => "owner"
    case RelatedInfo => "relatedInfo"
    case CreatedAt => "createdAt"
    case UpdatedAt => "updatedAt"
    case NextFollowup => "nextFollowup"
  }

  /** How `\(value)` prints a `[String]`: `["a", "b"]`. */
  function ArrayDescription(xs: seq<string>): string
  {
    "[" + Join(seq(|xs|, i requires 0 <= i < |xs| => "\"" + xs[i] + "\""), ", ") + "]"
  }

  /** How `\(value)` prints one project property. */
  function ProjectValueText(p: ProjectMeta, f: ProjectField): string
  {
    match f
    case Id => p.id
    case ProjectName => p.projectName
    case Focus => p.focus
    case TargetAudience => p.targetAudience
    case Description => p.description
    case CurrentAction => p.currentAction
    case NextAction => p.nextAction
    case Skills => ArrayDescription(p.skills)
    case CreatedAt => p.createdAt
    case UpdatedAt => p.updatedAt
  }

  function ActionValueText(a: ProjectAction, f: ActionField): string
  {
    match f
    case Id => a.id
    case ProjectId => a.projectId
    case Description => a.description
    case Status => a.status
    case Owner => a.owner
    case RelatedInfo => a.relatedInfo
    case CreatedAt => a.createdAt
    case UpdatedAt => a.updatedAt
    case NextFollowup => a.nextFollowup
  }

  /** One `label: value` line per property, in declaration order. */
  function ProjectProperties(p: ProjectMeta): (r: seq<string>)
    ensures |r| == |ProjectFields|
  {
    seq(|ProjectFields|, i requires 0 <= i < |ProjectFields| =>
      ProjectLabel(ProjectFields[i]) + ": " + ProjectValueText(p, ProjectFields[i]))
  }

  function ActionProperties(a: ProjectAction): (r: seq<string>)
    ensures |r| == |ActionFields|
  {
    seq(|ActionFields|, i requires 0 <= i < |ActionFields| =>
      ActionLabel(ActionFields[i]) + ": " + ActionValueText(a, ActionFields[i]))
  }

  /** The first line of a block: its number, `". "` and the type name. */
  function Header(index: nat, typeName: string): string
  {
    NatToString(index) + ". " + typeName + "\n"
  }

  /** A numbered block: the header, then the property lines joined by newlines. */
  function Block(index: nat, typeName: string, properties: seq<string>): string
  {
    Header(index, typeName) + Join(properties, "\n")
  }

  /** The numbered blocks, numbered from 1. */
  function ProjectBlocks(ps: seq<ProjectMeta>): (r: seq<string>)
    ensures |r| == |ps|
  {
    seq(|ps|, k requires 0 <= k < |ps| => Block(k + 1, "ProjectMeta", ProjectProperties(ps[k])))
  }

  function ActionBlocks(xs: seq<ProjectAction>): (r: seq<string>)
    ensures |r| == |xs|
  {
    seq(|xs|, k requires 0 <= k < |xs| => Block(k + 1, "EachAction", ActionProperties(xs[k])))
  }

  /** `metaSummary`. */
  function MetaSummary(sorted: seq<ProjectMeta>): string
  {
    Join(ProjectBlocks(Take(sorted, ProjectLimit)), "\n\n")
  }

  /** `actionSummary`. */
  function ActionSummary(sorted: seq<ProjectAction>): string
  {
    Join(ActionBlocks(Take(sorted, ActionLimit)), "\n\n")
  }

  /** `combinedExtraInfo`: extra information, project header, project
      summaries, action header, action summaries, in that order. */
  function CombinedExtraInfo(extraInfo: string, metaSummary: string, actionSummary: string): string
  {
    extraInfo + "\n\n" + ProjectsHeader + "\n" + metaSummary + "\n\n" + ActionsHeader + "\n" + actionSummary
  }

  /** The context text for a call, from the cached files. */
  function ExtraContext(extraInfo: string, files: Files, parse: JsonParser): string
  {
    CombinedExtraInfo(extraInfo, MetaSummary(SortedProjects(files, parse)), ActionSummary(SortedActions(files, parse)))
  }

  // ---------------------------------------------------------------------
  // Properties.

  /** The projects summarised: the first `min(3, n)` of the sorted list, each
      a loaded project, and none less recent than a loaded project left out. */
  lemma SummarisedProjects(loaded: seq<ProjectMeta>)
    ensures var chosen := Take(SortDesc(loaded, ProjectUpdatedAt), ProjectLimit);
      && |chosen| == (if |loaded| < ProjectLimit then |loaded| else ProjectLimit)
      && chosen <= SortDesc(loaded, ProjectUpdatedAt)
      && (forall p :: p in chosen ==> p in loaded)
      && (forall p, q :: p in chosen && q in loaded && q !in chosen ==> !LexLess(ProjectUpdatedAt(p), ProjectUpdatedAt(q)))
  {
    var chosen := Take(SortDesc(loaded, ProjectUpdatedAt), ProjectLimit);
    TopKAreMostRecent(loaded, ProjectUpdatedAt, ProjectLimit);
    forall p | p in chosen ensures p in loaded {
      SortKeepsRecords(loaded, ProjectUpdatedAt, p);
    }
    SortKeepsRecords(loaded, ProjectUpdatedAt, ProjectMeta("", "", "", "", "", "", "", [], "", ""));
  }

  /** The actions summarised: the first `min(5, m)` of the sorted list. */
  lemma SummarisedActions(loaded: seq<ProjectAction>)
    ensures var chosen := Take(SortDesc(loaded, ActionUpdatedAt), ActionLimit);
      && |chosen| == (if |loaded| < ActionLimit then |loaded| else ActionLimit)
      && chosen <= SortDesc(loaded, ActionUpdatedAt)
      && (forall a :: a in chosen ==> a in loaded)
      && (forall a, b :: a in chosen && b in loaded && b !in chosen ==> !LexLess(ActionUpdatedAt(a), ActionUpdatedAt(b)))
  {
    var chosen := Take(SortDesc(loaded, ActionUpdatedAt), ActionLimit);
    TopKAreMostRecent(loaded, ActionUpdatedAt, ActionLimit);
    forall a | a in chosen ensures a in loaded {
      SortKeepsRecords(loaded, ActionUpdatedAt, a);
    }
    SortKeepsRecords(loaded, ActionUpdatedAt, ProjectAction("", "", "", "", "", "", "", "", ""));
  }

  lemma ProjectLineOneLine(p: ProjectMeta, f: ProjectField)
    requires '\n' !in ProjectValueText(p, f)
    ensures '\n' !in ProjectLabel(f) + ": " + ProjectValueText(p, f)
  {
    assert '\n' !in ProjectLabel(f);
  }

  /** A project block's body, split at newlines, is one `label: value` line per
      property in declaration order, when no value spans lines. */
  lemma ProjectBlockBodyLines(p: ProjectMeta)
    requires forall f :: '\n' !in ProjectValueText(p, f)
    ensures var lines := Split(Join(ProjectProperties(p), "\n"), '\n');
      |lines| == 10
      && forall i :: 0 <= i < 10 ==>
           lines[i] == ProjectLabel(ProjectFields[i]) + ": " + ProjectValueText(p, ProjectFields[i])
  {
    var props := ProjectProperties(p);
    forall i | 0 <= i < |props| ensures '\n' !in props[i] {
      ProjectLineOneLine(p, ProjectFields[i]);
    }
    SplitJoin(props, '\n');
  }

  lemma ActionLineOneLine(a: ProjectAction, f: ActionField)
    requires '\n' !in ActionValueText(a, f)
    ensures '\n' !in ActionLabel(f) + ": " + ActionValueText(a, f)
  {
    assert '\n' !in ActionLabel(f);
  }

  lemma ActionBlockBodyLines(a: ProjectAction)
    requires forall f :: '\n' !in ActionValueText(a, f)
    ensures var lines := Split(Join(ActionProperties(a), "\n"), '\n');
      |lines| == 9
      && forall i :: 0 <= i < 9 ==>
           lines[i] == ActionLabel(ActionFields[i]) + ": " + ActionValueText(a, ActionFields[i])
  {
    var props := ActionProperties(a);
    forall i | 0 <= i < |props| ensures '\n' !in props[i] {
      ActionLineOneLine(a, ActionFields[i]);
    }
    SplitJoin(props, '\n');
  }

  /** A block opens with its number, `". "`, the type name and a newline. */
  lemma BlockOpensWithHeader(index: nat, typeName: string, properties: seq<string>)
    ensures Header(index, typeName) <= Block(index, typeName, properties)
  {
    assert Block(index, typeName, properties)[..|Header(index, typeName)|] == Header(index, typeName);
  }

  /** Headers with different numbers differ at a position both have: either
      in the digits, or where the shorter number is followed by `.`. */
  lemma HeaderMismatch(m: nat, n: nat, typeName: string) returns (k: nat)
    requires m != n
    ensures k < |Header(m, typeName)| && k < |Header(n, typeName)|
    ensures Header(m, typeName)[k] != Header(n, typeName)[k]
  {
    var a, b := NatToString(m), NatToString(n);
    NatToStringDigits(m);
    NatToStringDigits(n);
    if |a| == |b| {
      if a == b {
        NatToStringInjective(m, n);
        assert false;
      }
      k :| 0 <= k < |a| && a[k] != b[k];
      assert Header(m, typeName)[k] == a[k] && Header(n, typeName)[k] == b[k];
    } else if |a| < |b| {
      k := |a|;
      assert Header(m, typeName)[k] == '.' && Header(n, typeName)[k] == b[k];
    } else {
      k := |b|;
      assert Header(m, typeName)[k] == a[k] && Header(n, typeName)[k] == '.';
    }
  }

  /** A text that opens with the header numbered `n` does not open with the
      header of any other number. */
  lemma OnlyItsHeader(m: nat, n: nat, typeName: string, s: string)
    requires m != n && Header(n, typeName) <= s
    ensures !(Header(m, typeName) <= s)
  {
    var k := HeaderMismatch(m, n, typeName);
    assert s[k] == Header(n, typeName)[k];
  }

  /** Block `k` (from 0) opens with the header numbered `k + 1`, and no other
      block opens with that header: the numbers tell the blocks apart. */
  lemma BlockHeader(ps: seq<ProjectMeta>, k: nat)
    requires k < |ps|
    ensures Header(k + 1, "ProjectMeta") <= ProjectBlocks(ps)[k]
    ensures forall j :: 0 <= j < |ps| && j != k ==> !(Header(k + 1, "ProjectMeta") <= ProjectBlocks(ps)[j])
  {
    forall j | 0 <= j < |ps|
      ensures Header(j + 1, "ProjectMeta") <= ProjectBlocks(ps)[j]
    {
      BlockOpensWithHeader(j + 1, "ProjectMeta", ProjectProperties(ps[j]));
    }
    forall j | 0 <= j < |ps| && j != k
      ensures !(Header(k + 1, "ProjectMeta") <= ProjectBlocks(ps)[j])
    {
      OnlyItsHeader(k + 1, j + 1, "ProjectMeta", ProjectBlocks(ps)[j]);
    }
  }

  lemma ActionBlockHeader(xs: seq<ProjectAction>, k: nat)
    requires k < |xs|
    ensures Header(k + 1, "EachAction") <= ActionBlocks(xs)[k]
    ensures forall j :: 0 <= j < |xs| && j != k ==> !(Header(k + 1, "EachAction") <= ActionBlocks(xs)[j])
  {
    forall j | 0 <= j < |xs|
      ensures Header(j + 1, "EachAction") <= ActionBlocks(xs)[j]
    {
      BlockOpensWithHeader(j + 1, "EachAction", ActionProperties(xs[j]));
    }
    forall j | 0 <= j < |xs| && j != k
      ensures !(Header(k + 1, "EachAction") <= ActionBlocks(xs)[j])
    {
      OnlyItsHeader(k + 1, j + 1, "EachAction", ActionBlocks(xs)[j]);
    }
  }

  /** The five parts of the combined text sit in order at fixed offsets:
      the extra information first, the project summaries right after the
      project header line, and the action summaries last. */
  lemma CombinedInOrder(extraInfo: string, metaSummary: string, actionSummary: string)
    ensures var c := CombinedExtraInfo(extraInfo, metaSummary, actionSummary);
            var m := |extraInfo| + 2 + |ProjectsHeader| + 1;
            var h := m + |metaSummary| + 2;
            && |c| == h + |ActionsHeader| + 1 + |actionSummary|
            && c[..|extraInfo|] == extraInfo
            && c[|extraInfo|..m] == "\n\n" + ProjectsHeader + "\n"
            && c[m..m + |metaSummary|] == metaSummary
            && c[m + |metaSummary|..h] == "\n\n"
            && c[h..h + |ActionsHeader| + 1] == ActionsHeader + "\n"
            && c[h + |ActionsHeader| + 1..] == actionSummary
  {
    var p1 := "\n\n" + ProjectsHeader + "\n";
    var p2 := ActionsHeader + "\n";
    var c := CombinedExtraInfo(extraInfo, metaSummary, actionSummary);
    assert c == extraInfo + p1 + metaSummary + "\n\n" + p2 + actionSummary;
  }

  /** When neither file yields a record (missing, malformed, `[]`, or an
      element that does not decode), both summaries are empty and only the
      template remains after the extra information. */
  lemma ContextWithoutRecords(extraInfo: string, files: Files, parse: JsonParser)
    requires LoadProjects(files, ProjectsFileName, parse) == []
    requires LoadActions(files, ActionsFileName, parse) == []
    ensures ExtraContext(extraInfo, files, parse) ==
      extraInfo + "\n\n" + ProjectsHeader + "\n" + "\n\n" + ActionsHeader + "\n"
  {
    assert SortedProjects(files, parse) == [];
    assert SortedActions(files, parse) == [];
  }
}
