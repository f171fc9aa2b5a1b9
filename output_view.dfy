/**
  The output tab: every cached project and action, most recently updated
  first, each shown as a fixed block of bullet lines. Nothing is truncated.
*/
module OutputView {
  import opened Text
  import opened Json
  import opened Models
  import opened Sorting

  /** The three bullet lines of a project card, in display order. */
  function ProjectBulletLines(p: ProjectMeta): seq<string>
  {
    ["• Project Name: " + p.projectName,
     "• Current Action: " + p.currentAction,
     "• Created At: " + p.createdAt]
  }

  /** The four bullet lines of an action card; the status is bracketed. */
  function ActionBulletLines(a: ProjectAction): seq<string>
  {
    ["• Project ID: " + a.projectId,
     "• Description: " + a.description,
     "• Created At: " + a.createdAt,
     "• Status: [" + a.status + "]"]
  }

  /** The text of a project card. */
  function ProjectCard(p: ProjectMeta): string
  {
    Join(ProjectBulletLines(p), "\n")
  }

  /** The text of an action card. */
  function ActionCard(a: ProjectAction): string
  {
    Join(ActionBulletLines(a), "\n")
  }

  /** A project card reads as exactly three lines, Project Name, Current Action
      and Created At, when the shown values are single-line. */
  lemma ProjectCardLines(p: ProjectMeta)
    requires '\n' !in p.projectName && '\n' !in p.currentAction && '\n' !in p.createdAt
    ensures Split(ProjectCard(p), '\n') ==
      ["• Project Name: " + p.projectName,
       "• Current Action: " + p.currentAction,
       "• Created At: " + p.createdAt]
  {
    var lines := ProjectBulletLines(p);
    forall k | 0 <= k < |lines| ensures '\n' !in lines[k] {
      assert '\n' !in "• Project Name: " && '\n' !in "• Current Action: " && '\n' !in "• Created At: ";
    }
    SplitJoin(lines, '\n');
  }

  /** An action card reads as exactly four lines, the last with the status in
      brackets, when the shown values are single-line. */
  lemma ActionCardLines(a: ProjectAction)
    requires '\n' !in a.projectId && '\n' !in a.description && '\n' !in a.createdAt && '\n' !in a.status
    ensures Split(ActionCard(a), '\n') ==
      ["• Project ID: " + a.projectId,
       "• Description: " + a.description,
       "• Created At: " + a.createdAt,
       "• Status: [" + a.status + "]"]
  {
    var lines := ActionBulletLines(a);
    forall k | 0 <= k < |lines| ensures '\n' !in lines[k] {
      assert '\n' !in "• Project ID: " && '\n' !in "• Description: " && '\n' !in "• Created At: ";
      assert '\n' !in "• Status: [" && '\n' !in "]";
    }
    SplitJoin(lines, '\n');
  }

  /** The project cards of the tab, one per loaded project, in sorted order. */
  function ProjectCards(files: Files, parse: JsonParser): (r: seq<string>)
    ensures |r| == |LoadProjects(files, ProjectsFileName, parse)|
    ensures forall i :: 0 <= i < |r| ==> r[i] == ProjectCard(SortedProjects(files, parse)[i])
    ensures forall p :: p in LoadProjects(files, ProjectsFileName, parse) ==> ProjectCard(p) in r
  {
    var shown := SortedProjects(files, parse);
    var cards := seq(|shown|, i requires 0 <= i < |shown| => ProjectCard(shown[i]));
    assert forall p :: p in LoadProjects(files, ProjectsFileName, parse) ==> ProjectCard(p) in cards by {
      forall p | p in LoadProjects(files, ProjectsFileName, parse) ensures ProjectCard(p) in cards {
        SortKeepsRecords(LoadProjects(files, ProjectsFileName, parse), ProjectUpdatedAt, p);
        var i :| 0 <= i < |shown| && shown[i] == p;
        assert cards[i] == ProjectCard(p);
      }
    }
    SortKeepsRecords(LoadProjects(files, ProjectsFileName, parse), ProjectUpdatedAt, ProjectMeta("", "", "", "", "", "", "", [], "", ""));
    cards
  }

  /** The action cards of the tab, one per loaded action, in sorted order. */
  function ActionCards(files: Files, parse: JsonParser): (r: seq<string>)
    ensures |r| == |LoadActions(files, ActionsFileName, parse)|
    ensures forall i :: 0 <= i < |r| ==> r[i] == ActionCard(SortedActions(files, parse)[i])
    ensures forall a :: a in LoadActions(files, ActionsFileName, parse) ==> ActionCard(a) in r
  {
    var shown := SortedActions(files, parse);
    var cards := seq(|shown|, i requires 0 <= i < |shown| => ActionCard(shown[i]));
    assert forall a :: a in LoadActions(files, ActionsFileName, parse) ==> ActionCard(a) in cards by {
      forall a | a in LoadActions(files, ActionsFileName, parse) ensures ActionCard(a) in cards {
        SortKeepsRecords(LoadActions(files, ActionsFileName, parse), ActionUpdatedAt, a);
        var i :| 0 <= i < |shown| && shown[i] == a;
        assert cards[i] == ActionCard(a);
      }
    }
    SortKeepsRecords(LoadActions(files, ActionsFileName, parse), ActionUpdatedAt, ProjectAction("", "", "", "", "", "", "", "", ""));
    cards
  }
}
