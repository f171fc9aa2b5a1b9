/**
  "Fetch Drive JSON": for each target file name, ask Google Drive for the
  most recently modified file of that name in one folder, download it and
  store it in the app's documents directory under the target name.

  The network, `URL(string:)` and the file system are parameters (`Drive`):
  `validUrl` says whether a text is accepted as a URL, `fetch` gives the body
  a request returns (`None` when the data task delivers no data; an HTTP
  error status still delivers its body), `parse` is the JSON parser and
  `canWrite` says whether writing a document succeeds. The documents
  directory is the class `Documents`. The Swift code starts every request
  as an asynchronous task; the model runs them one after another in list
  order.
*/
module DriveSync {
  import opened Wrappers
  import opened Text
  import opened Json
  import opened Models

  /** The folder and file names the fetch button passes in. */
  const FolderId: string := "1sSqu2eQQydKjy-WIZzXfluuk6EoTfAE4"
  const TargetFiles: seq<string> := [ProjectsFileName, ActionsFileName]

  const ListBase: string := "https://www.googleapis.com/drive/v3/files?q="
  const InParents: string := "+in+parents+and+name="
  const ListTail: string := "&orderBy=modifiedTime desc&pageSize=1&fields=files(id,name,modifiedTime)"
  const DownloadBase: string := "https://www.googleapis.com/drive/v3/files/"
  const MediaSuffix: string := "?alt=media"

  /** The listing query for one target: files of that name whose parent is
      the folder, newest first, at most one, with id, name and time. */
  function ListQuery(folderId: string, target: string): string
  {
    ListBase + ("'" + (folderId + ("'" + (InParents + ("'" + (target + ("'" + ListTail)))))))
  }

  /** The download address of a file's content. */
  function DownloadUrl(fileId: string): string
  {
    DownloadBase + (fileId + MediaSuffix)
  }

  /** The value of the `Authorization` header. */
  function Bearer(token: string): string
  {
    "Bearer " + token
  }

  datatype Request = Request(url: string, authorization: string)

  /** Everything outside the program that a fetch depends on. */
  datatype Drive = Drive(
    validUrl: string -> bool,
    fetch: Request -> Option<Bytes>,
    parse: JsonParser,
    canWrite: string -> bool)

  /** What happened to one target. */
  datatype Outcome =
    | InvalidListUrl
    | ListFailed
    | NoFileFound
    | InvalidDownloadUrl
    | DownloadFailed
    | SaveFailed
    | Saved(data: Bytes)

  /** The id of the first listed file: the listing must be an object whose
      `files` entry is an array of objects, the array must not be empty and
      its first object must have a string `id`. */
  function FirstFileId(listing: Option<Json>): (r: Option<string>)
    ensures r.Some? <==>
              && listing.Some? && listing.value.JObject?
              && "files" in listing.value.fields
              && listing.value.fields["files"].JArray?
              && AllObjects(listing.value.fields["files"].items)
              && |listing.value.fields["files"].items| > 0
              && StringField(listing.value.fields["files"].items[0].fields, "id").Some?
    ensures r.Some? ==> r == StringField(listing.value.fields["files"].items[0].fields, "id")
  {
    if listing.Some? && listing.value.JObject? && "files" in listing.value.fields then
      var files := listing.value.fields["files"];
      if files.JArray? && AllObjects(files.items) && |files.items| > 0 then
        StringField(files.items[0].fields, "id")
      else None
    else None
  }

  /** `downloadDriveFile` followed by `saveToDocuments`, as a value. */
  function DownloadOutcome(drive: Drive, token: string, fileId: string, fileName: string): Outcome
  {
    var url := DownloadUrl(fileId);
    if !drive.validUrl(url) then InvalidDownloadUrl
    else
      match drive.fetch(Request(url, Bearer(token)))
      case None => DownloadFailed
      case Some(data) => if drive.canWrite(fileName) then Saved(data) else SaveFailed
  }

  /** One pass of the `listDriveFiles` loop body, as a value. */
  function TargetOutcome(drive: Drive, token: string, folderId: string, target: string): Outcome
  {
    var query := ListQuery(folderId, target);
    if !drive.validUrl(query) then InvalidListUrl
    else
      match drive.fetch(Request(query, Bearer(token)))
      case None => ListFailed
      case Some(body) =>
        match FirstFileId(drive.parse(body))
        case None => NoFileFound
        case Some(fileId) => DownloadOutcome(drive, token, fileId, target)
  }

  /** The documents after one target's outcome: only a save writes, and it
      writes the downloaded bytes under the target name. */
  function Apply(files: Files, name: string, outcome: Outcome): (r: Files)
  {
    if outcome.Saved? then files[name := outcome.data] else files
  }

  /** The documents after handling `targets` in order. */
  function Synced(files: Files, drive: Drive, token: string, folderId: string, targets: seq<string>): Files
  {
    if |targets| == 0 then files
    else
      var last := targets[|targets| - 1];
      Apply(Synced(files, drive, token, folderId, targets[..|targets| - 1]), last, TargetOutcome(drive, token, folderId, last))
  }

  // ---------------------------------------------------------------------
  // Properties of the specification functions.

  /** A target is saved exactly when its query is a URL, the listing came
      back, it names a first file, that file's download address is a URL,
      the download came back and the write succeeded; what is saved is the
      downloaded body. */
  lemma SavedExactly(drive: Drive, token: string, folderId: string, target: string, data: Bytes)
    ensures TargetOutcome(drive, token, folderId, target) == Saved(data) <==>
              exists body: Bytes, fileId: string ::
                && drive.validUrl(ListQuery(folderId, target))
                && drive.fetch(Request(ListQuery(folderId, target), Bearer(token))) == Some(body)
                && FirstFileId(drive.parse(body)) == Some(fileId)
                && drive.validUrl(DownloadUrl(fileId))
                && drive.fetch(Request(DownloadUrl(fileId), Bearer(token))) == Some(data)
                && drive.canWrite(target)
  {
    var query := ListQuery(folderId, target);
    if TargetOutcome(drive, token, folderId, target) == Saved(data) {
      var body := drive.fetch(Request(query, Bearer(token))).value;
      var fileId := FirstFileId(drive.parse(body)).value;
      assert drive.fetch(Request(DownloadUrl(fileId), Bearer(token))) == Some(data);
    }
  }

  /** Closed form of a whole run: a name that is not a target keeps its
      document; a target whose outcome is a save holds the downloaded bytes;
      any other target keeps whatever it had. */
  lemma {:induction false} SyncedClosedForm(files: Files, drive: Drive, token: string, folderId: string,
                                            targets: seq<string>, name: string)
    ensures var r := Synced(files, drive, token, folderId, targets);
            var o := TargetOutcome(drive, token, folderId, name);
            if name in targets && o.Saved? then name in r && r[name] == o.data
            else (name in r <==> name in files) && (name in files ==> r[name] == files[name])
  {
    if |targets| > 0 {
      var front := targets[..|targets| - 1];
      var last := targets[|targets| - 1];
      SyncedClosedForm(files, drive, token, folderId, front, name);
      assert targets == front + [last];
      assert name in targets <==> name in front || name == last;
    }
  }

  /** Only target names are ever written. */
  lemma OnlyTargetsWritten(files: Files, drive: Drive, token: string, folderId: string,
                           targets: seq<string>, name: string)
    requires name !in targets
    ensures name in Synced(files, drive, token, folderId, targets) <==> name in files
    ensures name in files ==> Synced(files, drive, token, folderId, targets)[name] == files[name]
  {
    SyncedClosedForm(files, drive, token, folderId, targets, name);
  }

  /** A query that is not a URL costs only its own target: every other
      target's outcome and document are as if it had not been in the list. */
  lemma InvalidQuerySkipsOnlyItsTarget(files: Files, drive: Drive, token: string, folderId: string,
                                       targets: seq<string>, skipped: string, name: string)
    requires !drive.validUrl(ListQuery(folderId, skipped))
    ensures TargetOutcome(drive, token, folderId, skipped) == InvalidListUrl
    ensures name != skipped ==>
              var r := Synced(files, drive, token, folderId, targets);
              var o := TargetOutcome(drive, token, folderId, name);
              if name in targets && o.Saved? then name in r && r[name] == o.data
              else (name in r <==> name in files) && (name in files ==> r[name] == files[name])
    ensures skipped in files ==> var r := Synced(files, drive, token, folderId, targets);
                                 skipped in r && r[skipped] == files[skipped]
  {
    SyncedClosedForm(files, drive, token, folderId, targets, name);
    SyncedClosedForm(files, drive, token, folderId, targets, skipped);
  }

  /** Four quote-free pieces, each followed by a quote, come back first
      when the text is cut at its quotes. */
  lemma QuotedPieces(b: string, f: string, m: string, t: string, tail: string)
    requires '\'' !in b && '\'' !in f && '\'' !in m && '\'' !in t
    ensures var s := Split(b + ("'" + (f + ("'" + (m + ("'" + (t + ("'" + tail))))))), '\'');
            |s| > 4 && s[..4] == [b, f, m, t]
  {
    var q := '\'';
    assert "'" == [q];
    SplitAfter(t, q, tail);
    SplitAfter(m, q, t + ("'" + tail));
    SplitAfter(f, q, m + ("'" + (t + ("'" + tail))));
    SplitAfter(b, q, f + ("'" + (m + ("'" + (t + ("'" + tail))))));
  }

  /** Cut at its quotes, a query gives back the folder id and the target
      name it was built from, provided neither contains a quote: the query
      asks about exactly that file name in exactly that folder. */
  lemma ListQueryPieces(folderId: string, target: string)
    requires '\'' !in folderId && '\'' !in target
    ensures var s := Split(ListQuery(folderId, target), '\'');
            |s| > 4 && s[..4] == [ListBase, folderId, InParents, target]
  {
    assert '\'' !in ListBase && '\'' !in InParents;
    QuotedPieces(ListBase, folderId, InParents, target, ListTail);
  }

  /** Different folders or different names give different queries. */
  lemma ListQueryInjective(f1: string, t1: string, f2: string, t2: string)
    requires '\'' !in f1 && '\'' !in t1 && '\'' !in f2 && '\'' !in t2
    requires ListQuery(f1, t1) == ListQuery(f2, t2)
    ensures f1 == f2 && t1 == t2
  {
    ListQueryPieces(f1, t1);
    ListQueryPieces(f2, t2);
  }

  /** The download address gives back the file id, provided the id has no `?`. */
  lemma DownloadUrlId(fileId: string)
    requires '?' !in fileId
    ensures Split(DownloadUrl(fileId), '?')[0] == DownloadBase + fileId
    ensures Split(DownloadUrl(fileId), '?')[0][|DownloadBase|..] == fileId
  {
    assert MediaSuffix == ['?'] + "alt=media";
    assert DownloadUrl(fileId) == (DownloadBase + fileId) + (['?'] + "alt=media");
    SplitAfter(DownloadBase + fileId, '?', "alt=media");
    assert (DownloadBase + fileId)[|DownloadBase|..] == fileId;
  }

  /** The app's own folder and targets contain no quote, so each of its two
      queries names the folder and its own target. */
  lemma AppQueriesNameTheirTargets()
    ensures forall i :: 0 <= i < |TargetFiles| ==>
              var s := Split(ListQuery(FolderId, TargetFiles[i]), '\'');
              |s| > 4 && s[1] == FolderId && s[3] == TargetFiles[i]
  {
    assert '\'' !in FolderId;
    assert '\'' !in ProjectsFileName && '\'' !in ActionsFileName;
    ListQueryPieces(FolderId, ProjectsFileName);
    ListQueryPieces(FolderId, ActionsFileName);
  }

  // ---------------------------------------------------------------------
  // The imperative code.

  /** The app's documents directory. */
  class Documents {
    var files: Files

    constructor (initial: Files)
      ensures files == initial
    {
      files := initial;
    }

    /** `saveToDocuments`: write `data` under `fileName`, replacing what was
        there; a failed write is reported and changes nothing. */
    method Save(data: Bytes, fileName: string, writeSucceeds: bool)
      modifies this
      ensures files == if writeSucceeds then old(files)[fileName := data] else old(files)
    {
      if writeSucceeds {
        files := files[fileName := data];
      }
    }
  }

  /** `downloadDriveFile`. */
  method DownloadDriveFile(drive: Drive, docs: Documents, fileId: string, fileName: string, token: string)
    returns (outcome: Outcome)
    modifies docs
    ensures outcome == DownloadOutcome(drive, token, fileId, fileName)
    ensures docs.files == Apply(old(docs.files), fileName, outcome)
  {
    var urlStr := DownloadUrl(fileId);
    if !drive.validUrl(urlStr) {
      return InvalidDownloadUrl;
    }
    var data := drive.fetch(Request(urlStr, Bearer(token)));
    if data.Some? {
      var written := drive.canWrite(fileName);
      docs.Save(data.value, fileName, written);
      outcome := if written then Saved(data.value) else SaveFailed;
    } else {
      outcome := DownloadFailed;
    }
  }

  /** `listDriveFiles`: one listing per target, in list order; a target
      whose query is not a URL is skipped and the loop goes on. */
  method ListDriveFiles(drive: Drive, docs: Documents, token: string, folderId: string, targets: seq<string>)
    returns (outcomes: seq<Outcome>)
    modifies docs
    ensures |outcomes| == |targets|
    ensures forall i :: 0 <= i < |targets| ==> outcomes[i] == TargetOutcome(drive, token, folderId, targets[i])
    ensures docs.files == Synced(old(docs.files), drive, token, folderId, targets)
  {
    outcomes := [];
    var i := 0;
    while i < |targets|
      invariant 0 <= i <= |targets|
      invariant |outcomes| == i
      invariant forall k :: 0 <= k < i ==> outcomes[k] == TargetOutcome(drive, token, folderId, targets[k])
      invariant docs.files == Synced(old(docs.files), drive, token, folderId, targets[..i])
    {
      var targetName := targets[i];
      assert targets[..i + 1][..i] == targets[..i];
      var query := ListQuery(folderId, targetName);
      if !drive.validUrl(query) {
        outcomes := outcomes + [InvalidListUrl];
        i := i + 1;
        continue;
      }
      var outcome;
      var data := drive.fetch(Request(query, Bearer(token)));
      if data.None? {
        outcome := ListFailed;
      } else {
        var fileId := FirstFileId(drive.parse(data.value));
        if fileId.Some? {
          outcome := DownloadDriveFile(drive, docs, fileId.value, targetName, token);
        } else {
          outcome := NoFileFound;
        }
      }
      outcomes := outcomes + [outcome];
      i := i + 1;
    }
    assert targets[..i] == targets;
  }

  /** The "Fetch Drive JSON" button: the app's folder and its two files.
      Afterwards each of the two names holds its downloaded bytes when it was
      saved and its earlier content otherwise, and no other document changes. */
  method FetchDriveJson(drive: Drive, docs: Documents, token: string) returns (outcomes: seq<Outcome>)
    modifies docs
    ensures |outcomes| == 2
    ensures outcomes[0] == TargetOutcome(drive, token, FolderId, ProjectsFileName)
    ensures outcomes[1] == TargetOutcome(drive, token, FolderId, ActionsFileName)
    ensures docs.files == Synced(old(docs.files), drive, token, FolderId, TargetFiles)
  {
    outcomes := ListDriveFiles(drive, docs, token, FolderId, TargetFiles);
  }
}
