/**
 * The rules the import program applies to one entity: the folder-reference remap
 * (`GetNewFolderId`), the dashboard id reuse (`GetNewDashboardId`), the normalised comparison
 * (`CompareDashboards`), and what `ImportFolder` and `ImportDashboard` decide to do.
 */
module Planning {
  import opened Wrappers
  import opened Json
  import opened Sequences
  import opened Grafana

  /** The messages `GetNewFolderId` and `GetNewDashboardId` return through `out string errorMessage`. */
  datatype ImportError =
    | NoUniqueFolder(oldFolderId: int)                   // "Couldn't find new folder id (2 …)"
    | FolderWithoutUid(oldFolderId: int)                 // "Couldn't find new folder id (3 …)"
    | FolderNotImported(oldFolderId: int, uid: string)   // "Couldn't find new folder id (4 …)"
    | InvalidGrafanaDashboard                            // "Invalid grafana dashboard"

  /** A returned value together with the error message beside it; None is the empty message. */
  datatype IdLookup<T> = IdLookup(id: T, error: Option<ImportError>)

  // ---------------------------------------------------------------- GetNewFolderId

  /** The local folder files whose exported definition has the numeric id `oldFolderId`. */
  function HasLegacyId(oldFolderId: int): Members -> bool {
    doc => DocId(doc) == Some(oldFolderId)
  }

  /**
   * The current numeric id of the folder a dashboard was exported from: 0 ("General") stays 0;
   * otherwise the one local folder file with that exported id gives a uid, and the id the
   * folder pass recorded for that uid is the answer. Anything else is an error with -1.
   */
  function GetNewFolderId(oldFolderId: int, oldFolders: seq<Members>, folderIds: map<string, int>): (r: IdLookup<int>)
    ensures oldFolderId == 0 ==> r == IdLookup(0, None)
    ensures r.error.Some? ==> r.id == -1
    ensures r.error.None? ==> r.id == 0 || r.id in folderIds.Values
  {
    if oldFolderId == 0 then IdLookup(0, None)
    else
      var matching := Filter(oldFolders, HasLegacyId(oldFolderId));
      if |matching| != 1 then IdLookup(-1, Some(NoUniqueFolder(oldFolderId)))
      else
        match DocUid(matching[0])
        case None => IdLookup(-1, Some(FolderWithoutUid(oldFolderId)))
        case Some(uid) =>
          if uid !in folderIds then IdLookup(-1, Some(FolderNotImported(oldFolderId, uid)))
          else IdLookup(folderIds[uid], None)
  }

  /** With exactly one local folder carrying the exported id, its uid decides the outcome. */
  lemma FolderIdOfUniqueFolder(oldFolderId: int, oldFolders: seq<Members>, folderIds: map<string, int>, k: int)
    requires oldFolderId != 0 && IsOnly(oldFolders, HasLegacyId(oldFolderId), k)
    ensures GetNewFolderId(oldFolderId, oldFolders, folderIds) ==
      match DocUid(oldFolders[k])
      case None => IdLookup(-1, Some(FolderWithoutUid(oldFolderId)))
      case Some(uid) =>
        if uid in folderIds then IdLookup(folderIds[uid], None)
        else IdLookup(-1, Some(FolderNotImported(oldFolderId, uid)))
  {
    FilterSingleton(oldFolders, HasLegacyId(oldFolderId));
  }

  /** With no local folder, or several, carrying a nonzero exported id, the remap fails. */
  lemma FolderIdWithoutUniqueFolder(oldFolderId: int, oldFolders: seq<Members>, folderIds: map<string, int>)
    requires oldFolderId != 0 && forall k :: !IsOnly(oldFolders, HasLegacyId(oldFolderId), k)
    ensures GetNewFolderId(oldFolderId, oldFolders, folderIds) == IdLookup(-1, Some(NoUniqueFolder(oldFolderId)))
  {
    FilterSingleton(oldFolders, HasLegacyId(oldFolderId));
  }

  // ---------------------------------------------------------------- GetNewDashboardId

  /** The remote entries whose uid is `uid`. */
  function HasUid(uid: string): Members -> bool {
    entry => UidOf(entry) == Some(uid)
  }

  /** `grafanaDashboards.Any(f => f["uid"] == uid)`. */
  predicate AnyWithUid(entries: seq<Members>, uid: string) {
    exists i :: 0 <= i < |entries| && UidOf(entries[i]) == Some(uid)
  }

  /** The numeric id of the first remote dashboard with the uid; null when there is none. */
  function GetNewDashboardId(grafanaDashboards: seq<Members>, uid: string): (r: IdLookup<Option<int>>)
    ensures r.error.Some? ==> r == IdLookup(None, Some(InvalidGrafanaDashboard))
  {
    var matching := Filter(grafanaDashboards, HasUid(uid));
    if |matching| == 0 then IdLookup(None, None)
    else
      match IntAt(matching[0], "id")
      case None => IdLookup(None, Some(InvalidGrafanaDashboard))
      case Some(id) => IdLookup(Some(id), None)
  }

  lemma DashboardIdWithoutMatch(grafanaDashboards: seq<Members>, uid: string)
    requires !AnyWithUid(grafanaDashboards, uid)
    ensures GetNewDashboardId(grafanaDashboards, uid) == IdLookup(None, None)
  {
    FilterEmpty(grafanaDashboards, HasUid(uid));
  }

  /** The first match decides, whatever later duplicates hold; a first match without an id is an error. */
  lemma DashboardIdOfFirstMatch(grafanaDashboards: seq<Members>, uid: string, k: int)
    requires IsFirst(grafanaDashboards, HasUid(uid), k)
    ensures GetNewDashboardId(grafanaDashboards, uid) ==
      if IntAt(grafanaDashboards[k], "id").Some? then IdLookup(IntAt(grafanaDashboards[k], "id"), None)
      else IdLookup(None, Some(InvalidGrafanaDashboard))
  {
    FilterFirst(grafanaDashboards, HasUid(uid), k);
  }

  // ---------------------------------------------------------------- CompareDashboards

  /** A definition without the two properties the server rewrites on every save. */
  function Normalized(d: Members): Members {
    Remove(Remove(d, "id"), "version")
  }

  /**
   * Whether two definitions are the same once `id` and `version` are dropped. The C# code
   * compares the serialised texts of the stripped clones; serialisation is injective, so this
   * is equality of the stripped values. The clones leave both arguments untouched.
   */
  function CompareDashboards(dashboard1: Members, dashboard2: Members): (r: bool)
    ensures r ==> forall k :: k != "id" && k != "version" ==> Get(dashboard1, k) == Get(dashboard2, k)
  {
    Normalized(dashboard1) == Normalized(dashboard2)
  }

  /** Assigning or dropping `id` or `version` never turns an equal comparison into a difference. */
  lemma {:induction false} CompareIgnoresVolatile(d1: Members, d2: Members, key: string, v: Json)
    requires key == "id" || key == "version"
    requires CompareDashboards(d1, d2)
    ensures CompareDashboards(d1, Set(d2, key, v))
    ensures CompareDashboards(d1, Remove(d2, key))
  {
    if key == "id" {
      RemoveSet(d2, "id", v);
      RemoveIdempotent(d2, "id");
    } else {
      RemoveSetOther(d2, "id", "version", v);
      RemoveSet(Remove(d2, "id"), "version", v);
      RemoveCommutes(Remove(d2, "version"), "id", "version");
      RemoveIdempotent(d2, "version");
      RemoveCommutes(d2, "id", "version");
      RemoveIdempotent(Remove(d2, "id"), "version");
    }
  }

  /** So a definition and any copy of it that differs only in `id` and `version` compare equal. */
  lemma CompareUpToIdAndVersion(d: Members, id: Json, version: Json)
    ensures CompareDashboards(d, Set(Set(d, "id", id), "version", version))
    ensures CompareDashboards(d, Set(Set(d, "version", version), "id", id))
  {
    CompareIgnoresVolatile(d, d, "id", id);
    CompareIgnoresVolatile(d, Set(d, "id", id), "version", version);
    CompareIgnoresVolatile(d, d, "version", version);
    CompareIgnoresVolatile(d, Set(d, "version", version), "id", id);
  }

  /** Definitions without `id` and `version` compare equal exactly when they are the same value. */
  lemma CompareWithoutVolatile(d1: Members, d2: Members)
    requires forall i :: 0 <= i < |d1| ==> d1[i].0 != "id" && d1[i].0 != "version"
    requires forall i :: 0 <= i < |d2| ==> d2[i].0 != "id" && d2[i].0 != "version"
    ensures CompareDashboards(d1, d2) <==> d1 == d2
  {
    RemoveAbsent(d1, "id");
    RemoveAbsent(d1, "version");
    RemoveAbsent(d2, "id");
    RemoveAbsent(d2, "version");
  }

  /**
   * The serialised forms keep property order, so two properties other than `id` and `version`
   * written in the other order make the definitions differ.
   */
  lemma CompareIsOrderSensitive(a: string, b: string, x: Json, y: Json)
    requires a != b && a != "id" && a != "version" && b != "id" && b != "version"
    ensures !CompareDashboards([(a, x), (b, y)], [(b, y), (a, x)])
  {
    CompareWithoutVolatile([(a, x), (b, y)], [(b, y), (a, x)]);
    assert [(a, x), (b, y)][0] != [(b, y), (a, x)][0];
  }

  // ---------------------------------------------------------------- ImportFolder

  datatype FolderPlan =
    | FolderInvalid                                          // no title or no uid
    | FolderUnchanged(uid: string, existingId: Option<int>)  // same title remotely, force off
    | FolderWrite(uid: string, request: Request)             // PUT over the existing one, or POST a new one

  /** What `ImportFolder` does with one folder definition, given the remote folders and the force flag. */
  function PlanFolder(folder: Members, grafanaFolders: seq<Members>, force: bool): (r: FolderPlan)
    ensures r.FolderInvalid? <==> StringAt(folder, "title").None? || StringAt(folder, "uid").None?
    ensures !r.FolderInvalid? ==> StringAt(folder, "uid") == Some(r.uid)
    ensures r.FolderUnchanged? ==>
      !force && exists i :: 0 <= i < |grafanaFolders| && UidOf(grafanaFolders[i]) == Some(r.uid) &&
                            IntAt(grafanaFolders[i], "id") == r.existingId
    ensures r.FolderWrite? ==> Phase(r.request) == 0 && r.request.verb != HttpGet
  {
    match (StringAt(folder, "title"), StringAt(folder, "uid"))
    case (Some(title), Some(uid)) =>
      var matching := Filter(grafanaFolders, HasUid(uid));
      var listed := |matching| >= 1;
      if listed && !force && StringAt(matching[0], "title") == Some(title) then
        FolderUnchanged(uid, IntAt(matching[0], "id"))
      else if listed then
        FolderWrite(uid, Request(HttpPut, FolderByUid(uid), [("title", JStr(title)), ("overwrite", JBool(true))]))
      else
        FolderWrite(uid, Request(HttpPost, Folders, [("title", JStr(title)), ("uid", JStr(uid))]))
    case _ => FolderInvalid
  }

  /** Same uid and same title remotely, force off: no request, and the first match's id is kept. */
  lemma PlanFolderSkips(folder: Members, grafanaFolders: seq<Members>, force: bool, k: int)
    requires StringAt(folder, "title").Some? && StringAt(folder, "uid").Some?
    requires IsFirst(grafanaFolders, HasUid(StringAt(folder, "uid").value), k)
    requires !force && StringAt(grafanaFolders[k], "title") == StringAt(folder, "title")
    ensures PlanFolder(folder, grafanaFolders, force) ==
            FolderUnchanged(StringAt(folder, "uid").value, IntAt(grafanaFolders[k], "id"))
  {
    FilterFirst(grafanaFolders, HasUid(StringAt(folder, "uid").value), k);
  }

  /** An existing folder that is forced or retitled is overwritten in place: PUT, body without uid. */
  lemma PlanFolderOverwrites(folder: Members, grafanaFolders: seq<Members>, force: bool, k: int)
    requires StringAt(folder, "title").Some? && StringAt(folder, "uid").Some?
    requires IsFirst(grafanaFolders, HasUid(StringAt(folder, "uid").value), k)
    requires force || StringAt(grafanaFolders[k], "title") != StringAt(folder, "title")
    ensures var uid := StringAt(folder, "uid").value;
      PlanFolder(folder, grafanaFolders, force) ==
      FolderWrite(uid, Request(HttpPut, FolderByUid(uid),
                               [("title", JStr(StringAt(folder, "title").value)), ("overwrite", JBool(true))]))
  {
    FilterFirst(grafanaFolders, HasUid(StringAt(folder, "uid").value), k);
  }

  /** A folder no remote folder shares a uid with is created: POST with title and uid. */
  lemma PlanFolderCreates(folder: Members, grafanaFolders: seq<Members>, force: bool)
    requires StringAt(folder, "title").Some? && StringAt(folder, "uid").Some?
    requires !AnyWithUid(grafanaFolders, StringAt(folder, "uid").value)
    ensures var uid := StringAt(folder, "uid").value;
      PlanFolder(folder, grafanaFolders, force) ==
      FolderWrite(uid, Request(HttpPost, Folders, [("title", JStr(StringAt(folder, "title").value)), ("uid", JStr(uid))]))
  {
    FilterEmpty(grafanaFolders, HasUid(StringAt(folder, "uid").value));
  }

  /** `folderIds[uid] = id`, done only when an id was found. */
  function Record(folderIds: map<string, int>, uid: string, id: Option<int>): (r: map<string, int>)
    ensures id.None? ==> r == folderIds
    ensures id.Some? ==> r.Keys == folderIds.Keys + {uid} && r[uid] == id.value
    ensures forall u :: u in folderIds && u != uid ==> r[u] == folderIds[u]
  {
    if id.Some? then folderIds[uid := id.value] else folderIds
  }

  // ---------------------------------------------------------------- ImportDashboard

  datatype DashboardPlan =
    | DashboardInvalid                     // no title or no uid
    | DashboardUnchanged                   // equal to the remote copy, force off
    | ExistingInvalid                      // the remote copy has no `dashboard` object
    | RemapFailed(error: ImportError)      // GetNewFolderId failed
    | IdLookupFailed(error: ImportError)   // GetNewDashboardId failed
    | DashboardWrite(request: Request)     // POST api/dashboards/db

  /** The uid whose remote copy `ImportDashboard` fetches before deciding: only for an existing dashboard with force off. */
  function FetchUid(dashboard: Members, grafanaDashboards: seq<Members>, force: bool): (r: Option<string>)
    ensures r.Some? <==> StringAt(dashboard, "title").Some? && StringAt(dashboard, "uid").Some? &&
                         AnyWithUid(grafanaDashboards, StringAt(dashboard, "uid").value) && !force
    ensures r.Some? ==> StringAt(dashboard, "uid") == r
  {
    match (StringAt(dashboard, "title"), StringAt(dashboard, "uid"))
    case (Some(_), Some(uid)) => if AnyWithUid(grafanaDashboards, uid) && !force then Some(uid) else None
    case _ => None
  }

  /** `dashboard["id"] = dashboardId` for an `int?`: null becomes a JSON null. */
  function IdValue(id: Option<int>): Json {
    match id
    case Some(n) => JNum(n)
    case None => JNull
  }

  /** The definition as posted: `id` set to the reused id (or null), `uid` set to the uid it was read with. */
  function Stamped(dashboard: Members, uid: string, id: Option<int>): Members {
    Set(Set(dashboard, "id", IdValue(id)), "uid", JStr(uid))
  }

  /** Setting `uid` to the value it already holds changes nothing, so only `id` differs from the local file. */
  lemma StampedOnlySetsId(dashboard: Members, uid: string, id: Option<int>)
    requires StringAt(dashboard, "uid") == Some(uid)
    ensures Stamped(dashboard, uid, id) == Set(dashboard, "id", IdValue(id))
    ensures Get(Stamped(dashboard, uid, id), "id") == Some(IdValue(id))
    ensures forall k :: k != "id" ==> Get(Stamped(dashboard, uid, id), k) == Get(dashboard, k)
  {
    var withId := Set(dashboard, "id", IdValue(id));
    assert Get(withId, "uid") == Some(JStr(uid));
    SetExisting(withId, "uid", JStr(uid));
  }

  /** The body of POST api/dashboards/db. */
  function WriteRequest(definition: Members, folderId: int, overwrite: bool): (r: Request)
    ensures r.verb == HttpPost && r.endpoint == DashboardsDb
    ensures ObjectAt(r.content, "dashboard") == Some(definition)
    ensures IntAt(r.content, "folderId") == Some(folderId)
    ensures BoolAt(r.content, "overwrite") == Some(overwrite)
  {
    var content := [("dashboard", JObj(definition)), ("folderId", JNum(folderId)), ("overwrite", JBool(overwrite))];
    assert content[1..] == [("folderId", JNum(folderId)), ("overwrite", JBool(overwrite))];
    assert content[1..][1..] == [("overwrite", JBool(overwrite))];
    assert Get(content, "folderId") == Get(content[1..], "folderId") == Some(JNum(folderId));
    assert Get(content, "overwrite") == Get(content[1..], "overwrite") == Get(content[1..][1..], "overwrite");
    Request(HttpPost, DashboardsDb, content)
  }

  /**
   * What `ImportDashboard` does with one dashboard definition. `fetched` is the reply of the
   * GET for the remote copy and is read only when `FetchUid` asks for that GET. The comparison
   * comes before the folder remap; the write carries the remapped folder id, the reused remote
   * id (or null) and `overwrite` set to whether the uid is listed remotely.
   */
  function PlanDashboard(dashboard: Members, grafanaDashboards: seq<Members>, folderFiles: seq<Members>,
                         folderIds: map<string, int>, oldFolderId: int, force: bool, fetched: Members): DashboardPlan
  {
    match (StringAt(dashboard, "title"), StringAt(dashboard, "uid"))
    case (Some(_), Some(uid)) =>
      var listed := AnyWithUid(grafanaDashboards, uid);
      var existing := ObjectAt(fetched, "dashboard");
      if listed && !force && existing.None? then ExistingInvalid
      else if listed && !force && CompareDashboards(dashboard, existing.value) then DashboardUnchanged
      else
        var folderId := GetNewFolderId(oldFolderId, folderFiles, folderIds);
        if folderId.error.Some? then RemapFailed(folderId.error.value)
        else
          var dashboardId := GetNewDashboardId(grafanaDashboards, uid);
          if dashboardId.error.Some? then IdLookupFailed(dashboardId.error.value)
          else DashboardWrite(WriteRequest(Stamped(dashboard, uid, dashboardId.id), folderId.id, listed))
    case _ => DashboardInvalid
  }

  /** The fetched copy matters only when the GET is made. */
  lemma PlanIgnoresUnfetchedCopy(dashboard: Members, grafanaDashboards: seq<Members>, folderFiles: seq<Members>,
                                 folderIds: map<string, int>, oldFolderId: int, force: bool, f1: Members, f2: Members)
    requires FetchUid(dashboard, grafanaDashboards, force).None?
    ensures PlanDashboard(dashboard, grafanaDashboards, folderFiles, folderIds, oldFolderId, force, f1) ==
            PlanDashboard(dashboard, grafanaDashboards, folderFiles, folderIds, oldFolderId, force, f2)
  {
  }

  /**
   * An existing, unforced dashboard equal to its remote copy is skipped before the folder is
   * remapped, so whatever the folder files and the recorded folder ids are.
   */
  lemma SkipBeforeRemap(dashboard: Members, grafanaDashboards: seq<Members>, folderFiles: seq<Members>,
                        folderIds: map<string, int>, oldFolderId: int, fetched: Members, existing: Members)
    requires FetchUid(dashboard, grafanaDashboards, false).Some?
    requires ObjectAt(fetched, "dashboard") == Some(existing) && CompareDashboards(dashboard, existing)
    ensures PlanDashboard(dashboard, grafanaDashboards, folderFiles, folderIds, oldFolderId, false, fetched) == DashboardUnchanged
  {
  }

  /** A fetched remote copy without a `dashboard` object ends the dashboard; nothing is written. */
  lemma InvalidExistingAborts(dashboard: Members, grafanaDashboards: seq<Members>, folderFiles: seq<Members>,
                              folderIds: map<string, int>, oldFolderId: int, fetched: Members)
    requires FetchUid(dashboard, grafanaDashboards, false).Some?
    requires ObjectAt(fetched, "dashboard").None?
    ensures PlanDashboard(dashboard, grafanaDashboards, folderFiles, folderIds, oldFolderId, false, fetched) == ExistingInvalid
  {
  }

  /** Every write is POST api/dashboards/db, made only after both lookups succeeded, and carries what they found. */
  lemma {:induction false} WriteShape(dashboard: Members, grafanaDashboards: seq<Members>, folderFiles: seq<Members>,
                   folderIds: map<string, int>, oldFolderId: int, force: bool, fetched: Members)
    requires PlanDashboard(dashboard, grafanaDashboards, folderFiles, folderIds, oldFolderId, force, fetched).DashboardWrite?
    ensures var request := PlanDashboard(dashboard, grafanaDashboards, folderFiles, folderIds, oldFolderId, force, fetched).request;
      var uid := StringAt(dashboard, "uid").value;
      var folderId := GetNewFolderId(oldFolderId, folderFiles, folderIds);
      var dashboardId := GetNewDashboardId(grafanaDashboards, uid);
      && request.verb == HttpPost && request.endpoint == DashboardsDb
      && StringAt(dashboard, "title").Some?
      && folderId.error.None? && dashboardId.error.None?
      && IntAt(request.content, "folderId") == Some(folderId.id)
      && (folderId.id == 0 || folderId.id in folderIds.Values)
      && BoolAt(request.content, "overwrite") == Some(AnyWithUid(grafanaDashboards, uid))
      && ObjectAt(request.content, "dashboard") == Some(Stamped(dashboard, uid, dashboardId.id))
      && Get(ObjectAt(request.content, "dashboard").value, "id") == Some(IdValue(dashboardId.id))
      && (forall k :: k != "id" ==> Get(ObjectAt(request.content, "dashboard").value, k) == Get(dashboard, k))
  {
    var uid := StringAt(dashboard, "uid").value;
    StampedOnlySetsId(dashboard, uid, GetNewDashboardId(grafanaDashboards, uid).id);
  }

  /** Once the comparison does not skip it, a dashboard whose folder cannot be remapped is abandoned. */
  lemma RemapFailureAborts(dashboard: Members, grafanaDashboards: seq<Members>, folderFiles: seq<Members>,
                           folderIds: map<string, int>, oldFolderId: int, force: bool, fetched: Members)
    requires StringAt(dashboard, "title").Some? && StringAt(dashboard, "uid").Some?
    requires FetchUid(dashboard, grafanaDashboards, force).Some? ==>
               ObjectAt(fetched, "dashboard").Some? && !CompareDashboards(dashboard, ObjectAt(fetched, "dashboard").value)
    requires GetNewFolderId(oldFolderId, folderFiles, folderIds).error.Some?
    ensures PlanDashboard(dashboard, grafanaDashboards, folderFiles, folderIds, oldFolderId, force, fetched) ==
            RemapFailed(GetNewFolderId(oldFolderId, folderFiles, folderIds).error.value)
  {
  }

  /**
   * A new dashboard whose exported folder id names exactly one local folder, recorded under
   * that folder's uid, is created there with a null id and overwrite off.
   */
  lemma CreateInRemappedFolder(dashboard: Members, grafanaDashboards: seq<Members>, folderFiles: seq<Members>,
                               folderIds: map<string, int>, oldFolderId: int, force: bool, fetched: Members, k: int)
    requires StringAt(dashboard, "title").Some? && StringAt(dashboard, "uid").Some?
    requires !AnyWithUid(grafanaDashboards, StringAt(dashboard, "uid").value)
    requires oldFolderId != 0 && IsOnly(folderFiles, HasLegacyId(oldFolderId), k)
    requires DocUid(folderFiles[k]).Some? && DocUid(folderFiles[k]).value in folderIds
    ensures var uid := StringAt(dashboard, "uid").value;
      PlanDashboard(dashboard, grafanaDashboards, folderFiles, folderIds, oldFolderId, force, fetched) ==
      DashboardWrite(WriteRequest(Stamped(dashboard, uid, None), folderIds[DocUid(folderFiles[k]).value], false))
  {
    FolderIdOfUniqueFolder(oldFolderId, folderFiles, folderIds, k);
    DashboardIdWithoutMatch(grafanaDashboards, StringAt(dashboard, "uid").value);
  }

  /** A new dashboard exported from "General" is created in "General" with a null id and overwrite off. */
  lemma CreateInGeneral(dashboard: Members, grafanaDashboards: seq<Members>, folderFiles: seq<Members>,
                        folderIds: map<string, int>, force: bool, fetched: Members)
    requires StringAt(dashboard, "title").Some? && StringAt(dashboard, "uid").Some?
    requires !AnyWithUid(grafanaDashboards, StringAt(dashboard, "uid").value)
    ensures var uid := StringAt(dashboard, "uid").value;
      PlanDashboard(dashboard, grafanaDashboards, folderFiles, folderIds, 0, force, fetched) ==
      DashboardWrite(WriteRequest(Stamped(dashboard, uid, None), 0, false))
  {
    DashboardIdWithoutMatch(grafanaDashboards, StringAt(dashboard, "uid").value);
  }

  /** An existing dashboard that is forced or changed is overwritten under the first match's id. */
  lemma OverwriteReusesId(dashboard: Members, grafanaDashboards: seq<Members>, folderFiles: seq<Members>,
                          folderIds: map<string, int>, oldFolderId: int, force: bool, fetched: Members, k: int)
    requires StringAt(dashboard, "title").Some? && StringAt(dashboard, "uid").Some?
    requires IsFirst(grafanaDashboards, HasUid(StringAt(dashboard, "uid").value), k)
    requires IntAt(grafanaDashboards[k], "id").Some?
    requires force || (ObjectAt(fetched, "dashboard").Some? && !CompareDashboards(dashboard, ObjectAt(fetched, "dashboard").value))
    requires GetNewFolderId(oldFolderId, folderFiles, folderIds).error.None?
    ensures var uid := StringAt(dashboard, "uid").value;
      PlanDashboard(dashboard, grafanaDashboards, folderFiles, folderIds, oldFolderId, force, fetched) ==
      DashboardWrite(WriteRequest(Stamped(dashboard, uid, IntAt(grafanaDashboards[k], "id")),
                                  GetNewFolderId(oldFolderId, folderFiles, folderIds).id, true))
  {
    DashboardIdOfFirstMatch(grafanaDashboards, StringAt(dashboard, "uid").value, k);
  }

  /**
   * Re-running against what a write left behind skips: the posted definition is `Stamped`
   * (see `WriteShape`), and if the server keeps it with its own `id` and `version`, the next
   * unforced run of the same dashboard finds no change, whatever the listing's other entries,
   * the folder files and the recorded folder ids are by then.
   */
  lemma {:induction false} RewriteIsUnchanged(dashboard: Members, uid: string, id: Option<int>,
                           laterListing: seq<Members>, laterFolderFiles: seq<Members>, laterFolderIds: map<string, int>,
                           oldFolderId: int, storedId: Json, storedVersion: Json, laterFetched: Members)
    requires StringAt(dashboard, "title").Some? && StringAt(dashboard, "uid") == Some(uid)
    requires AnyWithUid(laterListing, uid)
    requires ObjectAt(laterFetched, "dashboard") == Some(Set(Set(Stamped(dashboard, uid, id), "id", storedId), "version", storedVersion))
    ensures PlanDashboard(dashboard, laterListing, laterFolderFiles, laterFolderIds, oldFolderId, false, laterFetched) == DashboardUnchanged
  {
    var stored := Set(Set(Stamped(dashboard, uid, id), "id", storedId), "version", storedVersion);
    StoredCopyCompares(dashboard, uid, id, storedId, storedVersion);
    SkipBeforeRemap(dashboard, laterListing, laterFolderFiles, laterFolderIds, oldFolderId, laterFetched, stored);
  }

  /** The server's copy of a posted definition compares equal to the local definition. */
  lemma StoredCopyCompares(dashboard: Members, uid: string, id: Option<int>, storedId: Json, storedVersion: Json)
    requires StringAt(dashboard, "uid") == Some(uid)
    ensures CompareDashboards(dashboard, Set(Set(Stamped(dashboard, uid, id), "id", storedId), "version", storedVersion))
  {
    StampedOnlySetsId(dashboard, uid, id);
    var withId := Set(dashboard, "id", IdValue(id));
    CompareIgnoresVolatile(dashboard, dashboard, "id", IdValue(id));
    CompareIgnoresVolatile(dashboard, withId, "id", storedId);
    CompareIgnoresVolatile(dashboard, Set(withId, "id", storedId), "version", storedVersion);
  }
}
