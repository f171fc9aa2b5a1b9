/**
  The two cached record types, their JSON key tables (`CodingKeys`), and the
  loaders that read them (and the API token) from the app's documents
  directory. The documents directory is a map from file name to contents.
*/
module Models {
  import opened Wrappers
  import opened Json

  /** The app's documents directory: file name to file contents. */
  type Files = map<string, Bytes>

  datatype ProjectMeta = ProjectMeta(
    id: string,
    projectName: string,
    focus: string,
    targetAudience: string,
    description: string,
    currentAction: string,
    nextAction: string,
    skills: seq<string>,
    createdAt: string,
    updatedAt: string)

  datatype ProjectAction = ProjectAction(
    id: string,
    projectId: string,
    description: string,
    status: string,
    owner: string,
    relatedInfo: string,
    createdAt: string,
    updatedAt: string,
    nextFollowup: string)

  /** The stored properties of `ProjectMeta`, one per `CodingKeys` case. */
  datatype ProjectField =
    Id | ProjectName | Focus | TargetAudience | Description
    | CurrentAction | NextAction | Skills | CreatedAt | UpdatedAt

  /** The stored properties of `ProjectAction`, one per `CodingKeys` case. */
  datatype ActionField =
    Id | ProjectId | Description | Status | Owner
    | RelatedInfo | CreatedAt | UpdatedAt | NextFollowup

  /** The properties in declaration order. */
  const ProjectFields: seq<ProjectField> :=
    [ProjectField.Id, ProjectName, Focus, TargetAudience, ProjectField.Description,
     CurrentAction, NextAction, Skills, ProjectField.CreatedAt, ProjectField.UpdatedAt]

  const ActionFields: seq<ActionField> :=
    [ActionField.Id, ProjectId, ActionField.Description, Status, Owner,
     RelatedInfo, ActionField.CreatedAt, ActionField.UpdatedAt, NextFollowup]

  /** `ProjectMeta.CodingKeys`: the JSON key of each property. */
  function ProjectJsonKey(f: ProjectField): string
  {
    match f
    case Id => "project_id"
    case ProjectName => "project_name"
    case Focus => "focus"
    case TargetAudience => "target_audience"
    case Description => "description"
    case CurrentAction => "current_action"
    case NextAction => "next_action"
    case Skills => "skills"
    case CreatedAt => "created_at"
    case UpdatedAt => "updated_at"
  }

  /** `ProjectAction.CodingKeys`: the JSON key of each property. */
  function ActionJsonKey(f: ActionField): string
  {
    match f
    case Id => "action_id"
    case ProjectId => "project_id"
    case Description => "action_description"
    case Status => "action_status"
    case Owner => "action_owner"
    case RelatedInfo => "related_info"
    case CreatedAt => "created_at"
    case UpdatedAt => "updated_at"
    case NextFollowup => "next_followup"
  }

  /** `ProjectMeta.CodingKeys(stringValue:)`: the property a JSON key names, if any.
      It inverts the key table, so no two properties share a key. */
  function ProjectFieldOfKey(key: string): (r: Option<ProjectField>)
    ensures r.Some? ==> ProjectJsonKey(r.value) == key
    ensures forall f :: ProjectJsonKey(f) == key ==> r == Some(f)
  {
    if key == "project_id" then Some(ProjectField.Id)
    else if key == "project_name" then Some(ProjectName)
    else if key == "focus" then Some(Focus)
    else if key == "target_audience" then Some(TargetAudience)
    else if key == "description" then Some(ProjectField.Description)
    else if key == "current_action" then Some(CurrentAction)
    else if key == "next_action" then Some(NextAction)
    else if key == "skills" then Some(Skills)
    else if key == "created_at" then Some(ProjectField.CreatedAt)
    else if key == "updated_at" then Some(ProjectField.UpdatedAt)
    else None
  }

  /** `ProjectAction.CodingKeys(stringValue:)`, the inverse of the action key table. */
  function ActionFieldOfKey(key: string): (r: Option<ActionField>)
    ensures r.Some? ==> ActionJsonKey(r.value) == key
    ensures forall f :: ActionJsonKey(f) == key ==> r == Some(f)
  {
    if key == "action_id" then Some(ActionField.Id)
    else if key == "project_id" then Some(ProjectId)
    else if key == "action_description" then Some(ActionField.Description)
    else if key == "action_status" then Some(Status)
    else if key == "action_owner" then Some(Owner)
    else if key == "related_info" then Some(RelatedInfo)
    else if key == "created_at" then Some(ActionField.CreatedAt)
    else if key == "updated_at" then Some(ActionField.UpdatedAt)
    else if key == "next_followup" then Some(NextFollowup)
    else None
  }

  // ---------------------------------------------------------------------
  // The synthesised Codable conformances, over parsed JSON values.

  function StringsToJson(xs: seq<string>): (r: seq<Json>)
    ensures |r| == |xs| && AllStrings(r)
    ensures forall i :: 0 <= i < |xs| ==> r[i] == JString(xs[i])
  {
    seq(|xs|, i requires 0 <= i < |xs| => JString(xs[i]))
  }

  /** Decoding `[String]`: an array whose items are all strings. */
  function StringsField(fields: map<string, Json>, key: string): (r: Option<seq<string>>)
    ensures r.Some? <==> key in fields && fields[key].JArray? && AllStrings(fields[key].items)
    ensures r.Some? ==> fields[key] == JArray(StringsToJson(r.value))
  {
    if key in fields && fields[key].JArray? && AllStrings(fields[key].items) then
      var items := fields[key].items;
      var xs := seq(|items|, i requires 0 <= i < |items| => items[i].str);
      assert StringsToJson(xs) == items;
      Some(xs)
    else None
  }

  /** The JSON value a project stores for one property. */
  function ProjectFieldJson(p: ProjectMeta, f: ProjectField): Json
  {
    match f
    case Id => JString(p.id)
    case ProjectName => JString(p.projectName)
    case Focus => JString(p.focus)
    case TargetAudience => JString(p.targetAudience)
    case Description => JString(p.description)
    case CurrentAction => JString(p.currentAction)
    case NextAction => JString(p.nextAction)
    case Skills => JArray(StringsToJson(p.skills))
    case CreatedAt => JString(p.createdAt)
    case UpdatedAt => JString(p.updatedAt)
  }

  function ActionFieldJson(a: ProjectAction, f: ActionField): Json
  {
    match f
    case Id => JString(a.id)
    case ProjectId => JString(a.projectId)
    case Description => JString(a.description)
    case Status => JString(a.status)
    case Owner => JString(a.owner)
    case RelatedInfo => JString(a.relatedInfo)
    case CreatedAt => JString(a.createdAt)
    case UpdatedAt => JString(a.updatedAt)
    case NextFollowup => JString(a.nextFollowup)
  }

  /** `Encodable` for `ProjectMeta`: an object with one entry per key of the table. */
  function EncodeProject(p: ProjectMeta): (j: Json)
    ensures j.JObject?
    ensures forall f :: ProjectJsonKey(f) in j.fields && j.fields[ProjectJsonKey(f)] == ProjectFieldJson(p, f)
    ensures forall k :: k in j.fields ==> ProjectFieldOfKey(k).Some?
  {
    JObject(map[
      "project_id" := JString(p.id),
      "project_name" := JString(p.projectName),
      "focus" := JString(p.focus),
      "target_audience" := JString(p.targetAudience),
      "description" := JString(p.description),
      "current_action" := JString(p.currentAction),
      "next_action" := JString(p.nextAction),
      "skills" := JArray(StringsToJson(p.skills)),
      "created_at" := JString(p.createdAt),
      "updated_at" := JString(p.updatedAt)])
  }

  function EncodeAction(a: ProjectAction): (j: Json)
    ensures j.JObject?
    ensures forall f :: ActionJsonKey(f) in j.fields && j.fields[ActionJsonKey(f)] == ActionFieldJson(a, f)
    ensures forall k :: k in j.fields ==> ActionFieldOfKey(k).Some?
  {
    JObject(map[
      "action_id" := JString(a.id),
      "project_id" := JString(a.projectId),
      "action_description" := JString(a.description),
      "action_status" := JString(a.status),
      "action_owner" := JString(a.owner),
      "related_info" := JString(a.relatedInfo),
      "created_at" := JString(a.createdAt),
      "updated_at" := JString(a.updatedAt),
      "next_followup" := JString(a.nextFollowup)])
  }

  /** `Decodable` for `ProjectMeta`: an object holding every key of the table
      with a value of the property's type; other keys are ignored. Every
      property of the result is the value found under its own key. */
  function DecodeProject(j: Json): (r: Option<ProjectMeta>)
    ensures r.Some? ==> j.JObject?
    ensures r.Some? ==> forall f :: ProjectJsonKey(f) in j.fields && j.fields[ProjectJsonKey(f)] == ProjectFieldJson(r.value, f)
  {
    if !j.JObject? then None
    else
      var m := j.fields;
      var id := StringField(m, ProjectJsonKey(ProjectField.Id));
      var projectName := StringField(m, ProjectJsonKey(ProjectName));
      var focus := StringField(m, ProjectJsonKey(Focus));
      var targetAudience := StringField(m, ProjectJsonKey(TargetAudience));
      var description := StringField(m, ProjectJsonKey(ProjectField.Description));
      var currentAction := StringField(m, ProjectJsonKey(CurrentAction));
      var nextAction := StringField(m, ProjectJsonKey(NextAction));
      var skills := StringsField(m, ProjectJsonKey(Skills));
      var createdAt := StringField(m, ProjectJsonKey(ProjectField.CreatedAt));
      var updatedAt := StringField(m, ProjectJsonKey(ProjectField.UpdatedAt));
      if id.Some? && projectName.Some? && focus.Some? && targetAudience.Some?
         && description.Some? && currentAction.Some? && nextAction.Some?
         && skills.Some? && createdAt.Some? && updatedAt.Some?
      then
        Some(ProjectMeta(id.value, projectName.value, focus.value, targetAudience.value,
                         description.value, currentAction.value, nextAction.value,
                         skills.value, createdAt.value, updatedAt.value))
      else None
  }

  /** `Decodable` for `ProjectAction`. */
  function DecodeAction(j: Json): (r: Option<ProjectAction>)
    ensures r.Some? ==> j.JObject?
    ensures r.Some? ==> forall f :: ActionJsonKey(f) in j.fields && j.fields[ActionJsonKey(f)] == ActionFieldJson(r.value, f)
  {
    if !j.JObject? then None
    else
      var m := j.fields;
      var id := StringField(m, ActionJsonKey(ActionField.Id));
      var projectId := StringField(m, ActionJsonKey(ProjectId));
      var description := StringField(m, ActionJsonKey(ActionField.Description));
      var status := StringField(m, ActionJsonKey(Status));
      var owner := StringField(m, ActionJsonKey(Owner));
      var relatedInfo := StringField(m, ActionJsonKey(RelatedInfo));
      var createdAt := StringField(m, ActionJsonKey(ActionField.CreatedAt));
      var updatedAt := StringField(m, ActionJsonKey(ActionField.UpdatedAt));
      var nextFollowup := StringField(m, ActionJsonKey(NextFollowup));
      if id.Some? && projectId.Some? && description.Some? && status.Some?
         && owner.Some? && relatedInfo.Some? && createdAt.Some?
         && updatedAt.Some? && nextFollowup.Some?
      then
        Some(ProjectAction(id.value, projectId.value, description.value, status.value,
                           owner.value, relatedInfo.value, createdAt.value,
                           updatedAt.value, nextFollowup.value))
      else None
  }

  /** Decoding `[T]`: every item must decode; one bad item fails the whole array. */
  function DecodeArray<T>(items: seq<Json>, decode: Json -> Option<T>): (r: Option<seq<T>>)
    ensures r.Some? <==> forall i :: 0 <= i < |items| ==> decode(items[i]).Some?
    ensures r.Some? ==> |r.value| == |items|
    ensures r.Some? ==> forall i :: 0 <= i < |items| ==> decode(items[i]) == Some(r.value[i])
  {
    if |items| == 0 then Some([])
    else
      var head := decode(items[0]);
      var tail := DecodeArray(items[1..], decode);
      if head.Some? && tail.Some? then Some([head.value] + tail.value)
      else
        assert head.None? ==> decode(items[0]).None?;
        assert tail.None? ==> exists i :: 1 <= i < |items| && decode(items[i]).None? by {
          if tail.None? {
            var i :| 0 <= i < |items[1..]| && decode(items[1..][i]).None?;
            assert decode(items[i + 1]).None?;
          }
        }
        None
  }

  /** `JSONDecoder().decode([T].self, from: data)`: parse, then decode an array. */
  function DecodeList<T>(data: Bytes, parse: JsonParser, decode: Json -> Option<T>): Option<seq<T>>
  {
    match parse(data)
    case Some(JArray(items)) => DecodeArray(items, decode)
    case _ => None
  }

  /** `loadJSON`: the decoded array when the file exists and decodes, otherwise
      the empty list. It never fails. */
  function LoadJSON<T>(files: Files, fileName: string, parse: JsonParser, decode: Json -> Option<T>): (r: seq<T>)
    ensures fileName !in files ==> r == []
    ensures fileName in files ==>
      match DecodeList(files[fileName], parse, decode)
      case Some(xs) => r == xs
      case None => r == []
  {
    if fileName in files then DecodeList(files[fileName], parse, decode).GetOr([]) else []
  }

  /** `loadProjects(from:)`. */
  function LoadProjects(files: Files, fileName: string, parse: JsonParser): seq<ProjectMeta>
  {
    LoadJSON(files, fileName, parse, DecodeProject)
  }

  /** `loadActions(from:)`. */
  function LoadActions(files: Files, fileName: string, parse: JsonParser): seq<ProjectAction>
  {
    LoadJSON(files, fileName, parse, DecodeAction)
  }

  // ---------------------------------------------------------------------
  // Properties of the key tables and the codecs.

  /** Decoding an encoded project gives the project back. */
  lemma DecodeEncodeProject(p: ProjectMeta)
    ensures DecodeProject(EncodeProject(p)) == Some(p)
  {
    var m := EncodeProject(p).fields;
    forall f ensures StringField(m, ProjectJsonKey(f)).Some? <==> f != Skills {
      assert m[ProjectJsonKey(f)] == ProjectFieldJson(p, f);
    }
    assert m[ProjectJsonKey(Skills)] == JArray(StringsToJson(p.skills));
    assert StringsField(m, ProjectJsonKey(Skills)).Some?;
    var r := DecodeProject(EncodeProject(p));
    assert r.Some?;
    ProjectFieldsDetermine(r.value, p);
  }

  /** A project is determined by the JSON values of its properties. */
  lemma ProjectFieldsDetermine(p: ProjectMeta, q: ProjectMeta)
    requires forall f :: ProjectFieldJson(p, f) == ProjectFieldJson(q, f)
    ensures p == q
  {
    assert ProjectFieldJson(p, Skills) == ProjectFieldJson(q, Skills);
    StringsToJsonInjective(p.skills, q.skills);
    assert ProjectFieldJson(p, ProjectField.Id) == ProjectFieldJson(q, ProjectField.Id);
    assert ProjectFieldJson(p, ProjectName) == ProjectFieldJson(q, ProjectName);
    assert ProjectFieldJson(p, Focus) == ProjectFieldJson(q, Focus);
    assert ProjectFieldJson(p, TargetAudience) == ProjectFieldJson(q, TargetAudience);
    assert ProjectFieldJson(p, ProjectField.Description) == ProjectFieldJson(q, ProjectField.Description);
    assert ProjectFieldJson(p, CurrentAction) == ProjectFieldJson(q, CurrentAction);
    assert ProjectFieldJson(p, NextAction) == ProjectFieldJson(q, NextAction);
    assert ProjectFieldJson(p, ProjectField.CreatedAt) == ProjectFieldJson(q, ProjectField.CreatedAt);
    assert ProjectFieldJson(p, ProjectField.UpdatedAt) == ProjectFieldJson(q, ProjectField.UpdatedAt);
  }

  lemma DecodeEncodeAction(a: ProjectAction)
    ensures DecodeAction(EncodeAction(a)) == Some(a)
  {
    var m := EncodeAction(a).fields;
    forall f ensures StringField(m, ActionJsonKey(f)).Some? {
      assert m[ActionJsonKey(f)] == ActionFieldJson(a, f);
    }
    var r := DecodeAction(EncodeAction(a));
    assert r.Some?;
    ActionFieldsDetermine(r.value, a);
  }

  /** An action is determined by the JSON values of its properties. */
  lemma ActionFieldsDetermine(a: ProjectAction, b: ProjectAction)
    requires forall f :: ActionFieldJson(a, f) == ActionFieldJson(b, f)
    ensures a == b
  {
    assert ActionFieldJson(a, ActionField.Id) == ActionFieldJson(b, ActionField.Id);
    assert ActionFieldJson(a, ProjectId) == ActionFieldJson(b, ProjectId);
    assert ActionFieldJson(a, ActionField.Description) == ActionFieldJson(b, ActionField.Description);
    assert ActionFieldJson(a, Status) == ActionFieldJson(b, Status);
    assert ActionFieldJson(a, Owner) == ActionFieldJson(b, Owner);
    assert ActionFieldJson(a, RelatedInfo) == ActionFieldJson(b, RelatedInfo);
    assert ActionFieldJson(a, ActionField.CreatedAt) == ActionFieldJson(b, ActionField.CreatedAt);
    assert ActionFieldJson(a, ActionField.UpdatedAt) == ActionFieldJson(b, ActionField.UpdatedAt);
    assert ActionFieldJson(a, NextFollowup) == ActionFieldJson(b, NextFollowup);
  }

  lemma StringsToJsonInjective(xs: seq<string>, ys: seq<string>)
    requires StringsToJson(xs) == StringsToJson(ys)
    ensures xs == ys
  {
    assert |xs| == |ys|;
    forall i | 0 <= i < |xs| ensures xs[i] == ys[i] {
      assert StringsToJson(xs)[i] == JString(xs[i]);
    }
  }

  /** A key that is not in the table does not affect decoding. */
  lemma DecodeProjectIgnoresUnknownKey(fields: map<string, Json>, key: string, value: Json)
    requires ProjectFieldOfKey(key).None?
    ensures DecodeProject(JObject(fields[key := value])) == DecodeProject(JObject(fields))
  {
    var m := fields[key := value];
    forall f ensures StringField(m, ProjectJsonKey(f)) == StringField(fields, ProjectJsonKey(f))
                 && StringsField(m, ProjectJsonKey(f)) == StringsField(fields, ProjectJsonKey(f)) {
      assert ProjectJsonKey(f) != key;
    }
  }

  lemma DecodeActionIgnoresUnknownKey(fields: map<string, Json>, key: string, value: Json)
    requires ActionFieldOfKey(key).None?
    ensures DecodeAction(JObject(fields[key := value])) == DecodeAction(JObject(fields))
  {
    var m := fields[key := value];
    forall f ensures StringField(m, ActionJsonKey(f)) == StringField(fields, ActionJsonKey(f)) {
      assert ActionJsonKey(f) != key;
    }
  }

  /** A record with a key missing does not decode. */
  lemma DecodeProjectNeedsEveryKey(fields: map<string, Json>, f: ProjectField)
    requires ProjectJsonKey(f) !in fields
    ensures DecodeProject(JObject(fields)).None?
  {
  }

  lemma DecodeActionNeedsEveryKey(fields: map<string, Json>, f: ActionField)
    requires ActionJsonKey(f) !in fields
    ensures DecodeAction(JObject(fields)).None?
  {
  }

  function EncodeProjects(ps: seq<ProjectMeta>): (r: seq<Json>)
    ensures |r| == |ps|
    ensures forall i :: 0 <= i < |ps| ==> r[i] == EncodeProject(ps[i])
  {
    seq(|ps|, i requires 0 <= i < |ps| => EncodeProject(ps[i]))
  }

  function EncodeActions(xs: seq<ProjectAction>): (r: seq<Json>)
    ensures |r| == |xs|
    ensures forall i :: 0 <= i < |xs| ==> r[i] == EncodeAction(xs[i])
  {
    seq(|xs|, i requires 0 <= i < |xs| => EncodeAction(xs[i]))
  }

  /** A file holding the encoded array of projects loads back as that array. */
  lemma LoadProjectsRoundTrip(files: Files, fileName: string, parse: JsonParser, ps: seq<ProjectMeta>)
    requires fileName in files && parse(files[fileName]) == Some(JArray(EncodeProjects(ps)))
    ensures LoadProjects(files, fileName, parse) == ps
  {
    var items := EncodeProjects(ps);
    forall i | 0 <= i < |items| ensures DecodeProject(items[i]) == Some(ps[i]) {
      DecodeEncodeProject(ps[i]);
    }
    var r := DecodeArray(items, DecodeProject);
    assert r.Some?;
    assert r.value == ps;
  }

  lemma LoadActionsRoundTrip(files: Files, fileName: string, parse: JsonParser, xs: seq<ProjectAction>)
    requires fileName in files && parse(files[fileName]) == Some(JArray(EncodeActions(xs)))
    ensures LoadActions(files, fileName, parse) == xs
  {
    var items := EncodeActions(xs);
    forall i | 0 <= i < |items| ensures DecodeAction(items[i]) == Some(xs[i]) {
      DecodeEncodeAction(xs[i]);
    }
    var r := DecodeArray(items, DecodeAction);
    assert r.Some?;
    assert r.value == xs;
  }

  /** The file names under which the sync step caches the two record lists. */
  const ProjectsFileName: string := "project__meta.json"
  const ActionsFileName: string := "project__actions.json"

  /** The sort keys of the two record types. */
  function ProjectUpdatedAt(p: ProjectMeta): string { p.updatedAt }
  function ActionUpdatedAt(a: ProjectAction): string { a.updatedAt }

  // ---------------------------------------------------------------------
  // The API token.

  const EnvFileName: string := "JA_ENV.json"
  const TokenKey: string := "CLOSE_API_TOKEN"
  const TokenNotFound: string := "❌ Token Not Found"

  /** `(jsonObject as? [[String: String]])?.first?["CLOSE_API_TOKEN"]`:
      only the first element of an array of string-valued objects is read. */
  function FirstToken(j: Option<Json>): (r: Option<string>)
    ensures r.Some? <==>
      j.Some? && j.value.JArray? && |j.value.items| > 0
      && AllObjects(j.value.items)
      && (forall i :: 0 <= i < |j.value.items| ==> StringValued(j.value.items[i].fields))
      && TokenKey in j.value.items[0].fields
    ensures r.Some? ==> j.value.items[0].fields[TokenKey] == JString(r.value)
  {
    match j
    case Some(JArray(items)) =>
      if |items| > 0 && AllObjects(items)
         && (forall i :: 0 <= i < |items| ==> StringValued(items[i].fields))
      then StringField(items[0].fields, TokenKey)
      else None
    case _ => None
  }

  /** `loadEnvToken`: the token, or the sentinel text when there is none. */
  function LoadEnvToken(files: Files, parse: JsonParser): (r: string)
    ensures EnvFileName !in files ==> r == TokenNotFound
    ensures EnvFileName in files ==> r == FirstToken(parse(files[EnvFileName])).GetOr(TokenNotFound)
  {
    if EnvFileName in files then FirstToken(parse(files[EnvFileName])).GetOr(TokenNotFound)
    else TokenNotFound
  }

  /** Elements after the first are never consulted, as long as the array as a
      whole still has the `[[String: String]]` shape. */
  lemma TokenReadsFirstElementOnly(first: Json, rest: seq<Json>, rest': seq<Json>)
    requires first.JObject? && StringValued(first.fields)
    requires AllObjects(rest) && forall i :: 0 <= i < |rest| ==> StringValued(rest[i].fields)
    requires AllObjects(rest') && forall i :: 0 <= i < |rest'| ==> StringValued(rest'[i].fields)
    ensures FirstToken(Some(JArray([first] + rest))) == FirstToken(Some(JArray([first] + rest')))
    ensures FirstToken(Some(JArray([first] + rest))) == StringField(first.fields, TokenKey)
  {
    var a, b := [first] + rest, [first] + rest';
    assert forall i :: 1 <= i < |a| ==> a[i] == rest[i - 1];
    assert forall i :: 1 <= i < |b| ==> b[i] == rest'[i - 1];
  }

  /** Every way of not finding a token gives the sentinel. */
  lemma TokenSentinelCases(files: Files, parse: JsonParser)
    ensures EnvFileName !in files ==> LoadEnvToken(files, parse) == TokenNotFound
    ensures EnvFileName in files && parse(files[EnvFileName]).None? ==> LoadEnvToken(files, parse) == TokenNotFound
    ensures EnvFileName in files && parse(files[EnvFileName]).Some? && !parse(files[EnvFileName]).value.JArray?
            ==> LoadEnvToken(files, parse) == TokenNotFound
    ensures EnvFileName in files && parse(files[EnvFileName]) == Some(JArray([]))
            ==> LoadEnvToken(files, parse) == TokenNotFound
  {
  }

  /** A `{key, value}` record list holds no `CLOSE_API_TOKEN` key in its first
      element, so even a record whose `key` is `CLOSE_API_TOKEN` is not found. */
  lemma KeyValueRecordsGiveSentinel(files: Files, parse: JsonParser)
    requires EnvFileName in files
    requires parse(files[EnvFileName]) == Some(JArray([
      JObject(map["key" := JString("OTHER"), "value" := JString("x")]),
      JObject(map["key" := JString(TokenKey), "value" := JString("sk-abc")])]))
    ensures LoadEnvToken(files, parse) == TokenNotFound
  {
    var first := map["key" := JString("OTHER"), "value" := JString("x")];
    assert TokenKey !in first;
  }
}
