/** The downtime list page: active and closed lists, and which lifecycle
    button each event offers. */
module DowntimesPage {
  import opened Common
  import opened Types
  import opened RoleAccess
  import opened DowntimeStore

  /** The page's second list: the closed events. */
  function ClosedDowntimes(ds: seq<DowntimeEvent>): (r: seq<DowntimeEvent>)
    ensures |r| <= |ds|
    ensures forall e :: e in r <==> e in ds && e.status == Closed
  {
    if ds == [] then []
    else (if ds[0].status == Closed then [ds[0]] else []) + ClosedDowntimes(ds[1..])
  }

  /** The two lists partition the ledger: together they hold every event
      exactly as often as the ledger does, and each keeps ledger order. */
  lemma {:induction false} ActiveClosedPartition(ds: seq<DowntimeEvent>)
    ensures multiset(ActiveDowntimes(ds)) + multiset(ClosedDowntimes(ds)) == multiset(ds)
    ensures |ActiveDowntimes(ds)| + |ClosedDowntimes(ds)| == |ds|
  {
    PartitionMultiset(ds);
    assert |multiset(ActiveDowntimes(ds)) + multiset(ClosedDowntimes(ds))| == |multiset(ds)|;
  }

  /** The multiset half of the partition, by induction on the ledger. */
  lemma {:induction false} PartitionMultiset(ds: seq<DowntimeEvent>)
    ensures multiset(ActiveDowntimes(ds)) + multiset(ClosedDowntimes(ds)) == multiset(ds)
  {
    if ds != [] {
      var d, rest := ds[0], ds[1..];
      var active, closed := ActiveDowntimes(rest), ClosedDowntimes(rest);
      PartitionMultiset(rest);
      assert ds == [d] + rest;
      if d.status == Closed {
        assert ActiveDowntimes(ds) == active;
        assert ClosedDowntimes(ds) == [d] + closed;
        assert multiset([d] + closed) == multiset([d]) + multiset(closed);
      } else {
        assert ActiveDowntimes(ds) == [d] + active;
        assert ClosedDowntimes(ds) == closed;
        assert multiset([d] + active) == multiset([d]) + multiset(active);
      }
    }
  }

  lemma {:induction false} ClosedDowntimesAppend(a: seq<DowntimeEvent>, b: seq<DowntimeEvent>)
    ensures ClosedDowntimes(a + b) == ClosedDowntimes(a) + ClosedDowntimes(b)
  {
    if a == [] {
      assert a + b == b;
    } else {
      assert (a + b)[1..] == a[1..] + b;
      ClosedDowntimesAppend(a[1..], b);
    }
  }

  /** The Start Repair button (shown in the active list only). */
  predicate OffersStartRepair(d: DowntimeEvent, access: Access) {
    d.status == Open && access.canStartRepair
  }

  /** The Close Downtime button (shown in the active list only). */
  predicate OffersClose(d: DowntimeEvent, access: Access) {
    d.status == InProgress && access.canCloseDowntime
  }

  /** An event offers at most one action; a closed event offers none; and
      only the maintenance team, engineers and admins see either. */
  lemma ButtonGating(d: DowntimeEvent, user: Option<Session.User>)
    ensures !(OffersStartRepair(d, UseRoleAccess(user)) && OffersClose(d, UseRoleAccess(user)))
    ensures d.status == Closed ==> !OffersStartRepair(d, UseRoleAccess(user)) && !OffersClose(d, UseRoleAccess(user))
    ensures OffersStartRepair(d, UseRoleAccess(user)) || OffersClose(d, UseRoleAccess(user)) ==>
      user.Some? && user.value.role in {Maintenance, Engineer, Admin}
  {
    if user.Some? {
      RepairRights(user.value.role);
    }
  }

  /** Following the buttons, an event goes open, then in progress, then
      closed, and the record invariant holds throughout. */
  lemma {:induction false} GatedTransitionsKeepWellFormed(ds: seq<DowntimeEvent>, k: nat, access: Access,
                                                         rootCause: string, notes: string, now: Timestamp)
    requires LedgerWellFormed(ds)
    requires k < |ds| && forall i :: 0 <= i < |ds| && ds[i].id == ds[k].id ==> i == k
    requires ds[k].startTime <= now
    ensures OffersStartRepair(ds[k], access) ==>
      LedgerWellFormed(MarkInProgress(ds, ds[k].id)) && MarkInProgress(ds, ds[k].id)[k].status == InProgress
    ensures OffersClose(ds[k], access) ==>
      LedgerWellFormed(MarkClosed(ds, ds[k].id, rootCause, notes, now))
      && MarkClosed(ds, ds[k].id, rootCause, notes, now)[k].status == Closed
  {
    if OffersStartRepair(ds[k], access) {
      MarkInProgressKeepsWellFormed(ds, ds[k].id);
    }
    if OffersClose(ds[k], access) {
      MarkClosedKeepsWellFormed(ds, ds[k].id, rootCause, notes, now);
    }
  }

  /** `open={!!closeTarget}`: the dialog is open for a selected, non-empty id. */
  predicate CloseDialogOpen(closeTarget: Option<string>) {
    closeTarget.Some? && closeTarget.value != ""
  }

  /** `downtimeId={closeTarget || ""}`. */
  function CloseDialogId(closeTarget: Option<string>): (id: string)
    ensures CloseDialogOpen(closeTarget) ==> id == closeTarget.value
    ensures !CloseDialogOpen(closeTarget) ==> id == ""
  {
    if closeTarget.Some? then closeTarget.value else ""
  }
}
