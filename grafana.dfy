/**
 * What the import program reads and writes: the local definition files, the remote search
 * listing, and the HTTP requests it sends to the Grafana API.
 */
module Grafana {
  import opened Wrappers
  import opened Json
  import opened Sequences

  // ---------------------------------------------------------------- requests

  datatype Verb = HttpGet | HttpPost | HttpPut | HttpDelete

  /** The API paths the program addresses, relative to the base address. */
  datatype Endpoint =
    | Folders                       // api/folders
    | FolderByUid(uid: string)      // api/folders/{uid}
    | DashboardsDb                  // api/dashboards/db
    | DashboardByUid(uid: string)   // api/dashboards/uid/{uid}

  function Path(e: Endpoint): string {
    match e
    case Folders => "api/folders"
    case FolderByUid(uid) => "api/folders/" + uid
    case DashboardsDb => "api/dashboards/db"
    case DashboardByUid(uid) => "api/dashboards/uid/" + uid
  }

  /** Distinct endpoints have distinct paths, so a request is told apart by its endpoint as well as by its path. */
  lemma PathInjective(e1: Endpoint, e2: Endpoint)
    requires Path(e1) == Path(e2)
    ensures e1 == e2
  {
    var p := Path(e1);
    match e1
    case Folders =>
      assert |p| == 11 && p[4] == 'f';
    case FolderByUid(u) =>
      assert |p| >= 12 && p[4] == 'f';
      if e2.FolderByUid? {
        assert u == p[12..] == e2.uid;
      }
    case DashboardsDb =>
      assert |p| == 17 && p[4] == 'd' && p[15] == 'd';
    case DashboardByUid(u) =>
      assert |p| >= 19 && p[4] == 'd' && p[15] == 'u';
      if e2.DashboardByUid? {
        assert u == p[19..] == e2.uid;
      }
  }

  /** One request on the wire: method, path and JSON content (a GET carries no properties). */
  datatype Request = Request(verb: Verb, endpoint: Endpoint, content: Members)

  /**
   * The stage of a run a request belongs to: 0 folder writes, 1 dashboard reads and writes,
   * 2 dashboard deletions, 3 folder deletions.
   */
  function Phase(r: Request): nat {
    if r.verb == HttpDelete then (if r.endpoint.DashboardByUid? then 2 else 3)
    else if r.endpoint.Folders? || r.endpoint.FolderByUid? then 0
    else 1
  }

  /** The requests of a trace never go back to an earlier stage. */
  ghost predicate PhaseOrdered(t: seq<Request>) {
    forall i, j :: 0 <= i < j < |t| ==> Phase(t[i]) <= Phase(t[j])
  }

  ghost predicate PhaseAtMost(t: seq<Request>, p: nat) {
    forall i :: 0 <= i < |t| ==> Phase(t[i]) <= p
  }

  ghost predicate PhaseExactly(t: seq<Request>, p: nat) {
    forall i :: 0 <= i < |t| ==> Phase(t[i]) == p
  }

  lemma {:induction false} PhaseAppend(t: seq<Request>, extra: seq<Request>, p: nat)
    requires PhaseOrdered(t) && PhaseAtMost(t, p) && PhaseExactly(extra, p)
    ensures PhaseOrdered(t + extra) && PhaseAtMost(t + extra, p)
  {
  }

  function IsDelete(r: Request): bool {
    r.verb == HttpDelete
  }

  /** The deletions of a trace, in order. */
  function Deletes(t: seq<Request>): seq<Request> {
    Filter(t, IsDelete)
  }

  /** Before the removal sweep a trace holds no deletion. */
  lemma {:induction false} NoDeletesBeforeSweep(t: seq<Request>)
    requires PhaseAtMost(t, 1)
    ensures Deletes(t) == []
  {
    FilterEmpty(t, IsDelete);
  }

  // ---------------------------------------------------------------- local files

  /** What reading one *.json file yields. */
  datatype FileContent = EmptyFile | InvalidJson | JsonObject(members: Members)

  /** The documents `ReadDashboardFiles` keeps: the files that parse as a JSON object, in order. */
  function Loaded(files: seq<FileContent>): (docs: seq<Members>)
    ensures |docs| <= |files|
    ensures forall i :: 0 <= i < |docs| ==> JsonObject(docs[i]) in files
    ensures forall i :: 0 <= i < |files| && files[i].JsonObject? ==> files[i].members in docs
  {
    if files == [] then []
    else
      assert forall i :: 1 <= i < |files| ==> files[i] == files[1..][i - 1];
      (if files[0].JsonObject? then [files[0].members] else []) + Loaded(files[1..])
  }

  lemma {:induction false} LoadedAppend(files: seq<FileContent>, f: FileContent)
    ensures Loaded(files + [f]) == Loaded(files) + (if f.JsonObject? then [f.members] else [])
  {
    if files == [] {
      assert files + [f] == [f];
    } else {
      assert (files + [f])[1..] == files[1..] + [f];
      LoadedAppend(files[1..], f);
    }
  }

  /** `doc["meta"]?["isFolder"]?.Value<bool>()`. */
  function FolderMarker(doc: Members): Option<bool> {
    match ObjectAt(doc, "meta")
    case Some(meta) => BoolAt(meta, "isFolder")
    case None => None
  }

  function IsFolderFile(doc: Members): bool {
    FolderMarker(doc) == Some(true)
  }

  function IsDashboardFile(doc: Members): bool {
    FolderMarker(doc) == Some(false)
  }

  /** The folder files; a file without the marker is neither a folder nor a dashboard. */
  function FolderFiles(docs: seq<Members>): seq<Members> {
    Filter(docs, IsFolderFile)
  }

  function DashboardFiles(docs: seq<Members>): seq<Members> {
    Filter(docs, IsDashboardFile)
  }

  /** The two lists never share a file and together hold at most all of them. */
  lemma PartitionDisjoint(docs: seq<Members>)
    ensures |FolderFiles(docs)| + |DashboardFiles(docs)| <= |docs|
    ensures forall i :: 0 <= i < |docs| && FolderMarker(docs[i]).None? ==>
              docs[i] !in FolderFiles(docs) && docs[i] !in DashboardFiles(docs)
  {
    FilterDisjointSize(docs, IsFolderFile, IsDashboardFile);
  }

  /** `doc["dashboard"] is JObject`: the definition held by a file. */
  function Definition(doc: Members): Option<Members> {
    ObjectAt(doc, "dashboard")
  }

  /** `doc["dashboard"]?["uid"]?.Value<string>()`. */
  function DocUid(doc: Members): Option<string> {
    match Definition(doc)
    case Some(d) => StringAt(d, "uid")
    case None => None
  }

  /** `doc["dashboard"]?["id"]?.Value<int>()`: the numeric id a folder had when it was exported. */
  function DocId(doc: Members): Option<int> {
    match Definition(doc)
    case Some(d) => IntAt(d, "id")
    case None => None
  }

  /** `doc["meta"]?["folderId"]`, when it is an integer: the exported numeric id of a dashboard's folder. */
  function LegacyFolderId(doc: Members): Option<int> {
    match ObjectAt(doc, "meta")
    case Some(meta) => IntAt(meta, "folderId")
    case None => None
  }

  // ---------------------------------------------------------------- remote listing

  /** The objects of the api/search listing whose `type` is `kind` ("dash-folder" or "dash-db"). */
  function Listed(listing: seq<Json>, kind: string): (r: seq<Members>)
    ensures |r| <= |listing|
    ensures forall i :: 0 <= i < |r| ==> JObj(r[i]) in listing && StringAt(r[i], "type") == Some(kind)
    ensures forall i :: 0 <= i < |listing| && listing[i].JObj? && StringAt(listing[i].members, "type") == Some(kind) ==>
              listing[i].members in r
  {
    if listing == [] then []
    else
      var rest := Listed(listing[1..], kind);
      assert forall i :: 1 <= i < |listing| ==> listing[i] == listing[1..][i - 1];
      match listing[0]
      case JObj(m) => if StringAt(m, "type") == Some(kind) then [m] + rest else rest
      case _ => rest
  }

  /** `entry["uid"]?.Value<string>()`. */
  function UidOf(entry: Members): Option<string> {
    StringAt(entry, "uid")
  }
}
