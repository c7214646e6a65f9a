/**
 * The removal pass of the import program (`-r`): every remote dashboard, then every remote
 * folder, whose uid no local file of the same kind carries is deleted, unless it has no uid.
 */
module Sweep {
  import opened Wrappers
  import opened Json
  import opened Grafana
  import opened Planning

  datatype Kind = FolderKind | DashboardKind

  /** api/folders/{uid} for a folder, api/dashboards/uid/{uid} for a dashboard. */
  function DeletePath(kind: Kind, uid: string): Endpoint {
    match kind
    case FolderKind => FolderByUid(uid)
    case DashboardKind => DashboardByUid(uid)
  }

  /** The stage the deletions of a kind belong to: dashboards go before folders. */
  function KindPhase(kind: Kind): nat {
    if kind == DashboardKind then 2 else 3
  }

  /** The DELETE for a remote entry; its body is the listing entry itself. */
  function DeleteOf(kind: Kind, entry: Members): (r: Request)
    ensures r.verb == HttpDelete && Phase(r) == KindPhase(kind) && r.content == entry
  {
    Request(HttpDelete, DeletePath(kind, UidOf(entry).GetOr("")), entry)
  }

  /**
   * Whether some local file of the kind has the uid, compared as `?.Value<string>()` results:
   * a missing uid on both sides counts as the same.
   */
  predicate Protected(local: seq<Members>, uid: Option<string>) {
    exists i :: 0 <= i < |local| && DocUid(local[i]) == uid
  }

  /** `RemoveFolder` / `RemoveDashboard`: the DELETE sent for one entry, or none without a uid. */
  function RemoveRequest(kind: Kind, entry: Members): (r: seq<Request>)
    ensures r == [] <==> UidOf(entry).GetOr("") == ""
    ensures r != [] ==> r == [DeleteOf(kind, entry)] && r[0].endpoint == DeletePath(kind, UidOf(entry).value)
  {
    if UidOf(entry).GetOr("") == "" then [] else [DeleteOf(kind, entry)]
  }

  /** An entry the sweep deletes: it has a non-empty uid and no local file of the kind shares it. */
  predicate Doomed(local: seq<Members>, entry: Members) {
    UidOf(entry).GetOr("") != "" && !Protected(local, UidOf(entry))
  }

  /** The deletions one sweep sends, in listing order. */
  function Removals(kind: Kind, remote: seq<Members>, local: seq<Members>): seq<Request> {
    if remote == [] then []
    else
      var last := remote[|remote| - 1];
      Removals(kind, remote[..|remote| - 1], local) + (if Protected(local, UidOf(last)) then [] else RemoveRequest(kind, last))
  }

  /** What one more listing entry adds to a sweep. */
  lemma RemovalsStep(kind: Kind, remote: seq<Members>, local: seq<Members>, i: int)
    requires 0 <= i < |remote|
    ensures Removals(kind, remote[..i + 1], local) ==
            Removals(kind, remote[..i], local) + (if Protected(local, UidOf(remote[i])) then [] else RemoveRequest(kind, remote[i]))
  {
    assert remote[..i + 1][..i] == remote[..i];
  }

  /** A sweep sends, for each doomed entry in order, its DELETE and nothing else. */
  lemma {:induction false} RemovalsExact(kind: Kind, remote: seq<Members>, local: seq<Members>)
    ensures forall r :: r in Removals(kind, remote, local) <==>
              exists i :: 0 <= i < |remote| && Doomed(local, remote[i]) && r == DeleteOf(kind, remote[i])
    ensures |Removals(kind, remote, local)| <= |remote|
  {
    if remote != [] {
      var init := remote[..|remote| - 1];
      RemovalsExact(kind, init, local);
      assert forall i :: 0 <= i < |init| ==> init[i] == remote[i];
    }
  }

  /** No local file's uid is ever deleted, whether or not that file was importable. */
  lemma RemovalsSpareLocal(kind: Kind, remote: seq<Members>, local: seq<Members>)
    ensures forall r, j :: r in Removals(kind, remote, local) && 0 <= j < |local| ==> UidOf(r.content) != DocUid(local[j])
  {
    RemovalsExact(kind, remote, local);
  }

  /** Every deletion of a sweep is a DELETE of its kind's stage, addressed by a non-empty uid. */
  lemma RemovalsShape(kind: Kind, remote: seq<Members>, local: seq<Members>)
    ensures PhaseExactly(Removals(kind, remote, local), KindPhase(kind))
    ensures forall i :: 0 <= i < |Removals(kind, remote, local)| ==>
              var r := Removals(kind, remote, local)[i];
              IsDelete(r) && UidOf(r.content).Some? && UidOf(r.content).value != "" &&
              r.endpoint == DeletePath(kind, UidOf(r.content).value)
  {
    RemovalsExact(kind, remote, local);
    assert forall i :: 0 <= i < |Removals(kind, remote, local)| ==> Removals(kind, remote, local)[i] in Removals(kind, remote, local);
  }

  /**
   * `ImportDashboard` stamps `id` and `uid` into the local definition in place; the sweep later
   * reads that same definition's uid. The stamped uid is the uid it already had, so the
   * protection the file gives is the same before and after.
   */
  lemma StampInvisibleToSweep(local: seq<Members>, j: int, uid: string, id: Option<int>, u: Option<string>)
    requires 0 <= j < |local| && Definition(local[j]).Some?
    requires StringAt(Definition(local[j]).value, "uid") == Some(uid)
    ensures var stamped := Set(local[j], "dashboard", JObj(Stamped(Definition(local[j]).value, uid, id)));
      Protected(local[j := stamped], u) == Protected(local, u)
  {
    var stamped := Set(local[j], "dashboard", JObj(Stamped(Definition(local[j]).value, uid, id)));
    StampedOnlySetsId(Definition(local[j]).value, uid, id);
    assert DocUid(stamped) == DocUid(local[j]);
    var updated := local[j := stamped];
    assert forall i :: 0 <= i < |local| ==> DocUid(updated[i]) == DocUid(local[i]);
  }
}
