/**
 * One run of the import program against one Grafana server: the session state (the requests
 * sent so far and the folder ids recorded by the folder pass), the per-entity operations that
 * send requests, and the run itself with its folder pass, dashboard pass and removal sweep.
 */
module Importer {
  import opened Wrappers
  import opened Json
  import opened Sequences
  import opened Urls
  import opened Grafana
  import opened Planning
  import opened Sweep

  /** `ReadDashboardFiles`: keeps, in order, the files that parse as a JSON object. */
  method ReadDashboardFiles(files: seq<FileContent>) returns (docs: seq<Members>)
    ensures docs == Loaded(files)
    ensures forall i :: 0 <= i < |docs| ==> JsonObject(docs[i]) in files
  {
    docs := [];
    var i := 0;
    while i < |files|
      invariant 0 <= i <= |files|
      invariant docs == Loaded(files[..i])
    {
      LoadedAppend(files[..i], files[i]);
      assert files[..i + 1] == files[..i] + [files[i]];
      match files[i] {
        case EmptyFile =>
        case InvalidJson =>
        case JsonObject(doc) => docs := docs + [doc];
      }
      i := i + 1;
    }
    assert files[..i] == files;
  }

  /** What a dashboard plan sends after the optional GET of the remote copy. */
  function Posted(plan: DashboardPlan, dryrun: bool): seq<Request> {
    if plan.DashboardWrite? && !dryrun then [plan.request] else []
  }

  /** The GET `ImportDashboard` sends for the remote copy, if it fetches one. */
  function Fetch(dashboard: Members, grafanaDashboards: seq<Members>, force: bool): seq<Request> {
    match FetchUid(dashboard, grafanaDashboards, force)
    case Some(uid) => [Request(HttpGet, DashboardByUid(uid), [])]
    case None => []
  }

  /** A dashboard write that places the dashboard in "General" or in a folder the folder pass recorded. */
  predicate ReferencesKnownFolder(r: Request, folderIds: map<string, int>) {
    r.verb == HttpPost && IntAt(r.content, "folderId").Some? &&
    (IntAt(r.content, "folderId").value == 0 || IntAt(r.content, "folderId").value in folderIds.Values)
  }

  /**
   * What the dashboard pass may send: stage-1 requests only, reads only in a dry run, and
   * dashboard writes that reference a known folder.
   */
  ghost predicate DashboardPassRequests(t: seq<Request>, dryrun: bool, folderIds: map<string, int>) {
    && PhaseExactly(t, 1)
    && (dryrun ==> forall k :: 0 <= k < |t| ==> t[k].verb == HttpGet)
    && (forall k :: 0 <= k < |t| && t[k].endpoint == DashboardsDb ==> ReferencesKnownFolder(t[k], folderIds))
  }

  lemma DashboardPassAppend(a: seq<Request>, b: seq<Request>, dryrun: bool, folderIds: map<string, int>)
    requires DashboardPassRequests(a, dryrun, folderIds) && DashboardPassRequests(b, dryrun, folderIds)
    ensures DashboardPassRequests(a + b, dryrun, folderIds)
  {
    assert forall k :: 0 <= k < |a + b| ==> (a + b)[k] == if k < |a| then a[k] else b[k - |a|];
  }

  /** The requests of one `ImportDashboard` call are dashboard-pass requests. */
  lemma DashboardStepRequests(get: seq<Request>, plan: DashboardPlan, dryrun: bool, folderIds: map<string, int>)
    requires get == [] || (|get| == 1 && get[0].verb == HttpGet && get[0].endpoint.DashboardByUid?)
    requires plan.DashboardWrite? ==> plan.request.endpoint == DashboardsDb && ReferencesKnownFolder(plan.request, folderIds)
    ensures DashboardPassRequests(get + Posted(plan, dryrun), dryrun, folderIds)
  {
    DashboardPassAppend(get, Posted(plan, dryrun), dryrun, folderIds);
  }

  /** What the folder pass has sent and recorded so far. */
  datatype PassState = PassState(trace: seq<Request>, folderIds: map<string, int>)

  /**
   * One `ImportFolder` call on state `s`: an unchanged folder records the listed id, a written
   * folder records the id of the reply (nothing in a dry run, where the reply is empty).
   */
  function FolderStep(folder: Members, grafanaFolders: seq<Members>, force: bool, dryrun: bool,
                      server: seq<Request> -> Members, s: PassState): PassState
  {
    match PlanFolder(folder, grafanaFolders, force)
    case FolderInvalid => s
    case FolderUnchanged(uid, existingId) => PassState(s.trace, Record(s.folderIds, uid, existingId))
    case FolderWrite(uid, request) =>
      var t := s.trace + (if dryrun then [] else [request]);
      PassState(t, Record(s.folderIds, uid, if dryrun then None else IntAt(server(t), "id")))
  }

  /** The folder pass over `folders`, in order, from state `s`: files without a definition are skipped. */
  function FolderPass(folders: seq<Members>, grafanaFolders: seq<Members>, force: bool, dryrun: bool,
                      server: seq<Request> -> Members, s: PassState): PassState
    decreases |folders|
  {
    if folders == [] then s
    else
      var before := FolderPass(folders[..|folders| - 1], grafanaFolders, force, dryrun, server, s);
      match Definition(folders[|folders| - 1])
      case Some(folder) => FolderStep(folder, grafanaFolders, force, dryrun, server, before)
      case None => before
  }

  /** The folder pass of a fresh session sends stage-0 requests only, and nothing in a dry run. */
  lemma {:induction false} FolderPassStage(folders: seq<Members>, grafanaFolders: seq<Members>, force: bool, dryrun: bool,
                                           server: seq<Request> -> Members)
    ensures var r := FolderPass(folders, grafanaFolders, force, dryrun, server, PassState([], map[]));
      PhaseExactly(r.trace, 0) && (dryrun ==> r.trace == [])
  {
    if folders != [] {
      FolderPassStage(folders[..|folders| - 1], grafanaFolders, force, dryrun, server);
    }
  }

  /** One folder step records at most the uid of its own folder. */
  lemma FolderStepRecords(folder: Members, grafanaFolders: seq<Members>, force: bool, dryrun: bool,
                          server: seq<Request> -> Members, s: PassState)
    ensures forall uid :: uid in FolderStep(folder, grafanaFolders, force, dryrun, server, s).folderIds ==>
      uid in s.folderIds || StringAt(folder, "uid") == Some(uid)
  {
  }

  /** Every uid the folder pass records is the uid of one of the local folder files. */
  lemma {:induction false} FolderPassRecordsLocalUids(folders: seq<Members>, grafanaFolders: seq<Members>, force: bool,
                                                      dryrun: bool, server: seq<Request> -> Members)
    ensures var r := FolderPass(folders, grafanaFolders, force, dryrun, server, PassState([], map[]));
      forall uid :: uid in r.folderIds ==> Protected(folders, Some(uid))
  {
    if folders != [] {
      var init := folders[..|folders| - 1];
      var last := folders[|folders| - 1];
      var before := FolderPass(init, grafanaFolders, force, dryrun, server, PassState([], map[]));
      var r := FolderPass(folders, grafanaFolders, force, dryrun, server, PassState([], map[]));
      FolderPassRecordsLocalUids(init, grafanaFolders, force, dryrun, server);
      if Definition(last).Some? {
        FolderStepRecords(Definition(last).value, grafanaFolders, force, dryrun, server, before);
      }
      forall uid | uid in r.folderIds
        ensures Protected(folders, Some(uid))
      {
        if uid in before.folderIds {
          var i :| 0 <= i < |init| && DocUid(init[i]) == Some(uid);
          assert folders[i] == init[i];
        } else {
          assert DocUid(folders[|folders| - 1]) == Some(uid);
        }
      }
    }
  }

  /** In a dry run the folder pass records only ids the listing gives for the same uid. */
  lemma {:induction false} FolderPassDryRunIds(folders: seq<Members>, grafanaFolders: seq<Members>, force: bool,
                                               server: seq<Request> -> Members)
    ensures var r := FolderPass(folders, grafanaFolders, force, true, server, PassState([], map[]));
      forall uid :: uid in r.folderIds ==>
        exists g :: g in grafanaFolders && UidOf(g) == Some(uid) && IntAt(g, "id") == Some(r.folderIds[uid])
  {
    if folders != [] {
      FolderPassDryRunIds(folders[..|folders| - 1], grafanaFolders, force, server);
    }
  }

  /**
   * One `ImportDashboard` call on a dashboard file, after the requests `t`: a file without a
   * definition or an integer `meta.folderId` adds nothing, any other adds the optional GET of
   * the remote copy and what the plan then sends.
   */
  function DashboardStep(doc: Members, grafanaDashboards: seq<Members>, folders: seq<Members>, folderIds: map<string, int>,
                         force: bool, dryrun: bool, server: seq<Request> -> Members, t: seq<Request>): seq<Request>
  {
    if Definition(doc).Some? && LegacyFolderId(doc).Some? then
      var dashboard := Definition(doc).value;
      var get := Fetch(dashboard, grafanaDashboards, force);
      var fetched := if get == [] then [] else server(t + get);
      t + get + Posted(PlanDashboard(dashboard, grafanaDashboards, folders, folderIds, LegacyFolderId(doc).value, force, fetched), dryrun)
    else t
  }

  /** The dashboard pass over `dashboards`, in order, after the requests `t`. */
  function DashboardPass(dashboards: seq<Members>, grafanaDashboards: seq<Members>, folders: seq<Members>,
                         folderIds: map<string, int>, force: bool, dryrun: bool, server: seq<Request> -> Members,
                         t: seq<Request>): seq<Request>
    decreases |dashboards|
  {
    if dashboards == [] then t
    else
      var before := DashboardPass(dashboards[..|dashboards| - 1], grafanaDashboards, folders, folderIds, force, dryrun, server, t);
      DashboardStep(dashboards[|dashboards| - 1], grafanaDashboards, folders, folderIds, force, dryrun, server, before)
  }

  /** What `ImportDashboard` sends for one definition is dashboard-pass requests. */
  lemma DashboardPlanRequests(dashboard: Members, grafanaDashboards: seq<Members>, folders: seq<Members>,
                              folderIds: map<string, int>, oldFolderId: int, force: bool, fetched: Members, dryrun: bool)
    ensures var plan := PlanDashboard(dashboard, grafanaDashboards, folders, folderIds, oldFolderId, force, fetched);
      DashboardPassRequests(Fetch(dashboard, grafanaDashboards, force) + Posted(plan, dryrun), dryrun, folderIds)
  {
    var plan := PlanDashboard(dashboard, grafanaDashboards, folders, folderIds, oldFolderId, force, fetched);
    if plan.DashboardWrite? {
      WriteShape(dashboard, grafanaDashboards, folders, folderIds, oldFolderId, force, fetched);
    }
    DashboardStepRequests(Fetch(dashboard, grafanaDashboards, force), plan, dryrun, folderIds);
  }

  /** One dashboard file extends the requests with dashboard-pass requests. */
  lemma DashboardStepShape(doc: Members, grafanaDashboards: seq<Members>, folders: seq<Members>, folderIds: map<string, int>,
                           force: bool, dryrun: bool, server: seq<Request> -> Members, t: seq<Request>)
    ensures var r := DashboardStep(doc, grafanaDashboards, folders, folderIds, force, dryrun, server, t);
      t <= r && DashboardPassRequests(r[|t|..], dryrun, folderIds)
  {
    var r := DashboardStep(doc, grafanaDashboards, folders, folderIds, force, dryrun, server, t);
    if Definition(doc).Some? && LegacyFolderId(doc).Some? {
      var dashboard := Definition(doc).value;
      var get := Fetch(dashboard, grafanaDashboards, force);
      var fetched := if get == [] then [] else server(t + get);
      var posted := Posted(PlanDashboard(dashboard, grafanaDashboards, folders, folderIds, LegacyFolderId(doc).value, force, fetched), dryrun);
      assert r == t + (get + posted);
      DashboardPlanRequests(dashboard, grafanaDashboards, folders, folderIds, LegacyFolderId(doc).value, force, fetched, dryrun);
      assert r[|t|..] == get + posted;
    } else {
      assert r[|t|..] == [];
    }
  }

  /** The dashboard pass extends the requests with dashboard-pass requests only. */
  lemma {:induction false} DashboardPassShape(dashboards: seq<Members>, grafanaDashboards: seq<Members>, folders: seq<Members>,
                                              folderIds: map<string, int>, force: bool, dryrun: bool,
                                              server: seq<Request> -> Members, t: seq<Request>)
    ensures var r := DashboardPass(dashboards, grafanaDashboards, folders, folderIds, force, dryrun, server, t);
      t <= r && DashboardPassRequests(r[|t|..], dryrun, folderIds)
  {
    if dashboards != [] {
      var init := dashboards[..|dashboards| - 1];
      var before := DashboardPass(init, grafanaDashboards, folders, folderIds, force, dryrun, server, t);
      var r := DashboardStep(dashboards[|dashboards| - 1], grafanaDashboards, folders, folderIds, force, dryrun, server, before);
      DashboardPassShape(init, grafanaDashboards, folders, folderIds, force, dryrun, server, t);
      DashboardStepShape(dashboards[|dashboards| - 1], grafanaDashboards, folders, folderIds, force, dryrun, server, before);
      DashboardPassAppend(before[|t|..], r[|before|..], dryrun, folderIds);
      assert r[|t|..] == before[|t|..] + r[|before|..];
    }
  }

  /**
   * The connection to one server. `server` answers a request given everything sent so far,
   * the request included; a non-success status is an answer without properties.
   */
  class Session {
    const force: bool
    const dryrun: bool
    const server: seq<Request> -> Members
    var trace: seq<Request>
    var folderIds: map<string, int>

    constructor(force: bool, dryrun: bool, server: seq<Request> -> Members)
      ensures this.force == force && this.dryrun == dryrun && this.server == server
      ensures trace == [] && folderIds == map[]
    {
      this.force := force;
      this.dryrun := dryrun;
      this.server := server;
      trace := [];
      folderIds := map[];
    }

    /** `HttpSend`: in a dry run nothing is sent and the reply is an empty object. */
    method HttpSend(request: Request) returns (reply: Members)
      modifies this
      ensures folderIds == old(folderIds)
      ensures trace == old(trace) + (if dryrun then [] else [request])
      ensures reply == if dryrun then [] else server(trace)
    {
      if dryrun {
        return [];
      }
      trace := trace + [request];
      reply := server(trace);
    }

    /** `GetDashboard`: a read, sent in a dry run too. */
    method GetDashboard(uid: string) returns (reply: Members)
      modifies this
      ensures folderIds == old(folderIds)
      ensures trace == old(trace) + [Request(HttpGet, DashboardByUid(uid), [])]
      ensures reply == server(trace)
    {
      trace := trace + [Request(HttpGet, DashboardByUid(uid), [])];
      reply := server(trace);
    }

    /**
     * `ImportFolder`: skips an unchanged folder but records its id, otherwise sends the
     * folder write and records the id of the reply, if it has one.
     */
    method ImportFolder(folder: Members, grafanaFolders: seq<Members>) returns (plan: FolderPlan)
      modifies this
      ensures plan == PlanFolder(folder, grafanaFolders, force)
      ensures !plan.FolderWrite? ==> trace == old(trace)
      ensures plan.FolderInvalid? ==> folderIds == old(folderIds)
      ensures plan.FolderUnchanged? ==> folderIds == Record(old(folderIds), plan.uid, plan.existingId)
      ensures plan.FolderWrite? ==>
        trace == old(trace) + (if dryrun then [] else [plan.request]) &&
        folderIds == Record(old(folderIds), plan.uid, if dryrun then None else IntAt(server(trace), "id"))
      ensures PassState(trace, folderIds) == FolderStep(folder, grafanaFolders, force, dryrun, server, PassState(old(trace), old(folderIds)))
    {
      plan := PlanFolder(folder, grafanaFolders, force);
      match plan
      case FolderInvalid =>
      case FolderUnchanged(uid, existingId) =>
        folderIds := Record(folderIds, uid, existingId);
      case FolderWrite(uid, request) =>
        var reply := HttpSend(request);
        folderIds := Record(folderIds, uid, IntAt(reply, "id"));
    }

    /**
     * `ImportDashboard`: fetches the remote copy when the plan needs it, then sends the write
     * the plan decides on, if any. The folder ids are only read.
     */
    method ImportDashboard(dashboard: Members, grafanaDashboards: seq<Members>, folderFiles: seq<Members>, oldFolderId: int)
      returns (plan: DashboardPlan)
      modifies this
      ensures folderIds == old(folderIds)
      ensures var get := Fetch(dashboard, grafanaDashboards, force);
        var fetched := if get == [] then [] else server(old(trace) + get);
        plan == PlanDashboard(dashboard, grafanaDashboards, folderFiles, folderIds, oldFolderId, force, fetched) &&
        trace == old(trace) + get + Posted(plan, dryrun)
      ensures plan.DashboardWrite? ==>
        plan.request.endpoint == DashboardsDb && ReferencesKnownFolder(plan.request, folderIds)
    {
      var fetched: Members := [];
      ghost var get := Fetch(dashboard, grafanaDashboards, force);
      var existing := FetchUid(dashboard, grafanaDashboards, force);
      if existing.Some? {
        fetched := GetDashboard(existing.value);
        assert trace == old(trace) + get;
      }
      ghost var afterGet := trace;
      plan := PlanDashboard(dashboard, grafanaDashboards, folderFiles, folderIds, oldFolderId, force, fetched);
      if plan.DashboardWrite? {
        assert plan.request.endpoint == DashboardsDb && ReferencesKnownFolder(plan.request, folderIds) by {
          WriteShape(dashboard, grafanaDashboards, folderFiles, folderIds, oldFolderId, force, fetched);
        }
        var reply := HttpSend(plan.request);
      }
      assert trace == afterGet + Posted(plan, dryrun);
    }

    /** `RemoveFolder` / `RemoveDashboard`: an entry without a uid is left alone. */
    method Remove(kind: Kind, entry: Members)
      modifies this
      ensures folderIds == old(folderIds)
      ensures trace == old(trace) + (if dryrun then [] else RemoveRequest(kind, entry))
    {
      var uid := UidOf(entry).GetOr("");
      if uid == "" {
        return;
      }
      var reply := HttpSend(DeleteOf(kind, entry));
    }
    /** The folder loop: each folder file holding a definition goes through `ImportFolder`. */
    method ImportFolders(folders: seq<Members>, grafanaFolders: seq<Members>)
      requires trace == [] && folderIds == map[]
      modifies this
      ensures PassState(trace, folderIds) == FolderPass(folders, grafanaFolders, force, dryrun, server, PassState([], map[]))
      ensures PhaseExactly(trace, 0)
      ensures dryrun ==> trace == []
      ensures forall uid :: uid in folderIds ==> Protected(folders, Some(uid))
      ensures dryrun ==> forall uid :: uid in folderIds ==>
        exists g :: g in grafanaFolders && UidOf(g) == Some(uid) && IntAt(g, "id") == Some(folderIds[uid])
    {
      var i := 0;
      while i < |folders|
        invariant 0 <= i <= |folders|
        invariant PassState(trace, folderIds) == FolderPass(folders[..i], grafanaFolders, force, dryrun, server, PassState([], map[]))
      {
        assert folders[..i + 1][..i] == folders[..i];
        match Definition(folders[i]) {
          case Some(folder) => var plan := ImportFolder(folder, grafanaFolders);
          case None =>
        }
        i := i + 1;
      }
      assert folders[..i] == folders;
      FolderPassStage(folders, grafanaFolders, force, dryrun, server);
      FolderPassRecordsLocalUids(folders, grafanaFolders, force, dryrun, server);
      if dryrun {
        FolderPassDryRunIds(folders, grafanaFolders, force, server);
      }
    }

    /**
     * The dashboard loop: each dashboard file holding a definition and an integer
     * `meta.folderId` goes through `ImportDashboard`, with the folder files for the remap.
     */
    method ImportDashboards(dashboards: seq<Members>, grafanaDashboards: seq<Members>, folders: seq<Members>)
      modifies this
      ensures folderIds == old(folderIds)
      ensures trace == DashboardPass(dashboards, grafanaDashboards, folders, folderIds, force, dryrun, server, old(trace))
      ensures old(trace) <= trace && DashboardPassRequests(trace[|old(trace)|..], dryrun, folderIds)
    {
      var i := 0;
      while i < |dashboards|
        invariant 0 <= i <= |dashboards|
        invariant folderIds == old(folderIds)
        invariant trace == DashboardPass(dashboards[..i], grafanaDashboards, folders, folderIds, force, dryrun, server, old(trace))
      {
        assert dashboards[..i + 1][..i] == dashboards[..i];
        ImportDashboardFile(dashboards[i], grafanaDashboards, folders);
        i := i + 1;
      }
      assert dashboards[..i] == dashboards;
      DashboardPassShape(dashboards, grafanaDashboards, folders, folderIds, force, dryrun, server, old(trace));
    }

    /** One step of the dashboard loop: a file without a definition or an integer `meta.folderId` is skipped. */
    method ImportDashboardFile(doc: Members, grafanaDashboards: seq<Members>, folders: seq<Members>)
      modifies this
      ensures folderIds == old(folderIds)
      ensures Definition(doc).None? || LegacyFolderId(doc).None? ==> trace == old(trace)
      ensures Definition(doc).Some? && LegacyFolderId(doc).Some? ==>
        var dashboard := Definition(doc).value;
        var get := Fetch(dashboard, grafanaDashboards, force);
        var fetched := if get == [] then [] else server(old(trace) + get);
        trace == old(trace) + get +
                 Posted(PlanDashboard(dashboard, grafanaDashboards, folders, folderIds, LegacyFolderId(doc).value, force, fetched), dryrun)
      ensures trace == DashboardStep(doc, grafanaDashboards, folders, folderIds, force, dryrun, server, old(trace))
      ensures old(trace) <= trace && DashboardPassRequests(trace[|old(trace)|..], dryrun, folderIds)
    {
      if Definition(doc).Some? && LegacyFolderId(doc).Some? {
        var plan := ImportDashboard(Definition(doc).value, grafanaDashboards, folders, LegacyFolderId(doc).value);
      }
      DashboardStepShape(doc, grafanaDashboards, folders, folderIds, force, dryrun, server, old(trace));
    }

    /** The removal stage: dashboards first, then folders. */
    method RemoveAllMissing(grafanaDashboards: seq<Members>, dashboards: seq<Members>,
                            grafanaFolders: seq<Members>, folders: seq<Members>)
      modifies this
      ensures folderIds == old(folderIds)
      ensures trace == old(trace) + (if dryrun then [] else Removals(DashboardKind, grafanaDashboards, dashboards) +
                                                            Removals(FolderKind, grafanaFolders, folders))
    {
      RemoveMissing(DashboardKind, grafanaDashboards, dashboards);
      RemoveMissing(FolderKind, grafanaFolders, folders);
      assert old(trace) + Removals(DashboardKind, grafanaDashboards, dashboards) + Removals(FolderKind, grafanaFolders, folders) ==
             old(trace) + (Removals(DashboardKind, grafanaDashboards, dashboards) + Removals(FolderKind, grafanaFolders, folders));
    }

    /** One removal loop: each remote entry whose uid no local file of the kind has goes through `Remove`. */
    method RemoveMissing(kind: Kind, remote: seq<Members>, local: seq<Members>)
      modifies this
      ensures folderIds == old(folderIds)
      ensures trace == old(trace) + (if dryrun then [] else Removals(kind, remote, local))
    {
      var i := 0;
      while i < |remote|
        invariant 0 <= i <= |remote|
        invariant folderIds == old(folderIds)
        invariant trace == old(trace) + (if dryrun then [] else Removals(kind, remote[..i], local))
      {
        var entry := remote[i];
        RemovalsStep(kind, remote, local, i);
        ghost var before := trace;
        if !Protected(local, UidOf(entry)) {
          Remove(kind, entry);
        }
        assert trace == before + (if dryrun || Protected(local, UidOf(entry)) then [] else RemoveRequest(kind, entry));
        i := i + 1;
      }
      assert remote[..i] == remote;
    }
  }

  /**
   * `ImportFoldersAndDashboards`: reads the files, checks the url, imports the folders, then
   * the dashboards, then (with `remove`) deletes what has no local file. `listing` is the reply
   * to api/search. The result is the exit code, the requests sent, and the folder ids recorded.
   */
  method ImportFoldersAndDashboards(files: seq<FileContent>, url: string, listing: seq<Json>,
                                    force: bool, remove: bool, dryrun: bool, server: seq<Request> -> Members)
    returns (code: int, trace: seq<Request>, folderIds: map<string, int>)
    ensures code == if GetBaseAddress(url) == "" then 1 else 0
    ensures code == 1 ==> trace == [] && folderIds == map[]
    ensures PhaseOrdered(trace)
    ensures dryrun ==> forall i :: 0 <= i < |trace| ==> trace[i].verb == HttpGet
    ensures Deletes(trace) ==
      if code == 0 && remove && !dryrun then
        Removals(DashboardKind, Listed(listing, "dash-db"), DashboardFiles(Loaded(files))) +
        Removals(FolderKind, Listed(listing, "dash-folder"), FolderFiles(Loaded(files)))
      else []
    ensures forall uid :: uid in folderIds ==> Protected(FolderFiles(Loaded(files)), Some(uid))
    ensures dryrun ==> forall uid :: uid in folderIds ==>
      exists g :: g in Listed(listing, "dash-folder") && UidOf(g) == Some(uid) && IntAt(g, "id") == Some(folderIds[uid])
    ensures forall i :: 0 <= i < |trace| && trace[i].endpoint == DashboardsDb ==> ReferencesKnownFolder(trace[i], folderIds)
    ensures code == 0 ==>
      var folders := FolderFiles(Loaded(files));
      var folderPass := FolderPass(folders, Listed(listing, "dash-folder"), force, dryrun, server, PassState([], map[]));
      folderIds == folderPass.folderIds &&
      trace == DashboardPass(DashboardFiles(Loaded(files)), Listed(listing, "dash-db"), folders, folderPass.folderIds,
                             force, dryrun, server, folderPass.trace) +
               (if remove && !dryrun then
                  Removals(DashboardKind, Listed(listing, "dash-db"), DashboardFiles(Loaded(files))) +
                  Removals(FolderKind, Listed(listing, "dash-folder"), folders)
                else [])
  {
    var docs := ReadDashboardFiles(files);
    var folders := FolderFiles(docs);
    var dashboards := DashboardFiles(docs);

    if GetBaseAddress(url) == "" {
      return 1, [], map[];
    }

    var grafanaFolders := Listed(listing, "dash-folder");
    var grafanaDashboards := Listed(listing, "dash-db");
    var session := new Session(force, dryrun, server);

    session.ImportFolders(folders, grafanaFolders);
    ghost var afterFolders := session.trace;
    ghost var folderPass := FolderPass(folders, grafanaFolders, force, dryrun, server, PassState([], map[]));
    assert afterFolders == folderPass.trace && session.folderIds == folderPass.folderIds;
    session.ImportDashboards(dashboards, grafanaDashboards, folders);
    ghost var afterDashboards := session.trace;
    assert afterDashboards == DashboardPass(dashboards, grafanaDashboards, folders, folderPass.folderIds, force, dryrun, server, folderPass.trace);
    FolderPassStage(folders, grafanaFolders, force, dryrun, server);
    DashboardPassShape(dashboards, grafanaDashboards, folders, folderPass.folderIds, force, dryrun, server, folderPass.trace);

    ghost var dashboardRemovals := Removals(DashboardKind, grafanaDashboards, dashboards);
    ghost var folderRemovals := Removals(FolderKind, grafanaFolders, folders);
    if remove {
      session.RemoveAllMissing(grafanaDashboards, dashboards, grafanaFolders, folders);
    }
    RemovalsSweepShape(DashboardKind, grafanaDashboards, dashboards);
    RemovalsSweepShape(FolderKind, grafanaFolders, folders);
    RunRequests(afterFolders, afterDashboards, remove && !dryrun, dashboardRemovals, folderRemovals, session.trace,
                dryrun, session.folderIds);
    return 0, session.trace, session.folderIds;
  }

  /**
   * The folder pass's requests, the dashboard pass's, then (when `sweeping`) the two sweeps:
   * the stages stay in order, a dry run reads only, the deletions are the sweeps', and every
   * dashboard write references a known folder.
   */
  lemma RunRequests(afterFolders: seq<Request>, afterDashboards: seq<Request>, sweeping: bool,
                    dashboardRemovals: seq<Request>, folderRemovals: seq<Request>, all: seq<Request>,
                    dryrun: bool, folderIds: map<string, int>)
    requires PhaseExactly(afterFolders, 0) && (dryrun ==> afterFolders == [])
    requires afterFolders <= afterDashboards && DashboardPassRequests(afterDashboards[|afterFolders|..], dryrun, folderIds)
    requires SweepShape(dashboardRemovals, 2) && SweepShape(folderRemovals, 3)
    requires dryrun ==> !sweeping
    requires all == afterDashboards + (if sweeping then dashboardRemovals + folderRemovals else [])
    ensures PhaseOrdered(all)
    ensures dryrun ==> forall i :: 0 <= i < |all| ==> all[i].verb == HttpGet
    ensures Deletes(all) == if sweeping then dashboardRemovals + folderRemovals else []
    ensures forall i :: 0 <= i < |all| && all[i].endpoint == DashboardsDb ==> ReferencesKnownFolder(all[i], folderIds)
  {
    assert PhaseOrdered(afterDashboards) && PhaseAtMost(afterDashboards, 1) by {
      PassesOrdered(afterFolders, afterDashboards);
    }
    assert dryrun ==> forall i :: 0 <= i < |afterDashboards| ==> afterDashboards[i].verb == HttpGet by {
      assert afterDashboards == afterFolders + afterDashboards[|afterFolders|..];
    }
    if sweeping {
      assert all == afterDashboards + dashboardRemovals + folderRemovals;
      SweepOrdered(afterDashboards, dashboardRemovals, folderRemovals);
      SweepDeletes(afterDashboards, dashboardRemovals, folderRemovals);
      SweepWritesNothing(afterDashboards, dashboardRemovals, folderRemovals, folderIds);
    } else {
      assert all == afterDashboards;
      NoDeletesBeforeSweep(afterDashboards);
    }
  }

  /** A sweep of stage `p`: deletions only, none of them a dashboard write. */
  ghost predicate SweepShape(removals: seq<Request>, p: nat) {
    PhaseExactly(removals, p) &&
    forall i :: 0 <= i < |removals| ==> IsDelete(removals[i]) && removals[i].endpoint != DashboardsDb
  }

  /** Each removal loop sends a sweep of its kind's stage. */
  lemma RemovalsSweepShape(kind: Kind, remote: seq<Members>, local: seq<Members>)
    ensures SweepShape(Removals(kind, remote, local), KindPhase(kind))
  {
    RemovalsShape(kind, remote, local);
  }

  /** The folder pass's writes followed by the dashboard pass's requests keep the stages in order. */
  lemma PassesOrdered(afterFolders: seq<Request>, afterDashboards: seq<Request>)
    requires PhaseExactly(afterFolders, 0)
    requires afterFolders <= afterDashboards && PhaseExactly(afterDashboards[|afterFolders|..], 1)
    ensures PhaseOrdered(afterDashboards) && PhaseAtMost(afterDashboards, 1)
  {
    assert afterDashboards == afterFolders + afterDashboards[|afterFolders|..];
    PhaseAppend(afterFolders, afterDashboards[|afterFolders|..], 1);
  }

  /** The sweeps add no dashboard write. */
  lemma SweepWritesNothing(t: seq<Request>, dashboardRemovals: seq<Request>, folderRemovals: seq<Request>,
                           folderIds: map<string, int>)
    requires forall i :: 0 <= i < |t| && t[i].endpoint == DashboardsDb ==> ReferencesKnownFolder(t[i], folderIds)
    requires PhaseExactly(dashboardRemovals, 2) && PhaseExactly(folderRemovals, 3)
    requires forall i :: 0 <= i < |dashboardRemovals| ==> IsDelete(dashboardRemovals[i]) && dashboardRemovals[i].endpoint != DashboardsDb
    requires forall i :: 0 <= i < |folderRemovals| ==> IsDelete(folderRemovals[i]) && folderRemovals[i].endpoint != DashboardsDb
    ensures var all := t + dashboardRemovals + folderRemovals;
      forall i :: 0 <= i < |all| && all[i].endpoint == DashboardsDb ==> ReferencesKnownFolder(all[i], folderIds)
  {
  }

  /** Appending the two sweeps keeps the stages in order. */
  lemma SweepOrdered(t: seq<Request>, dashboardRemovals: seq<Request>, folderRemovals: seq<Request>)
    requires PhaseOrdered(t) && PhaseAtMost(t, 1)
    requires PhaseExactly(dashboardRemovals, 2) && PhaseExactly(folderRemovals, 3)
    ensures PhaseOrdered(t + dashboardRemovals + folderRemovals)
  {
    assert PhaseAtMost(t, 2);
    PhaseAppend(t, dashboardRemovals, 2);
    assert PhaseAtMost(t + dashboardRemovals, 3);
    PhaseAppend(t + dashboardRemovals, folderRemovals, 3);
  }

  /** The deletions of a run are exactly the two sweeps'. */
  lemma SweepDeletes(t: seq<Request>, dashboardRemovals: seq<Request>, folderRemovals: seq<Request>)
    requires PhaseAtMost(t, 1)
    requires forall i :: 0 <= i < |dashboardRemovals| ==> IsDelete(dashboardRemovals[i])
    requires forall i :: 0 <= i < |folderRemovals| ==> IsDelete(folderRemovals[i])
    ensures Deletes(t + dashboardRemovals + folderRemovals) == dashboardRemovals + folderRemovals
  {
    NoDeletesBeforeSweep(t);
    FilterAll(dashboardRemovals, IsDelete);
    FilterAll(folderRemovals, IsDelete);
    var withDashboards := t + dashboardRemovals;
    FilterAppend(t, dashboardRemovals, IsDelete);
    assert Filter(withDashboards, IsDelete) == dashboardRemovals;
    FilterAppend(withDashboards, folderRemovals, IsDelete);
  }
}
