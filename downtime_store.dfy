/** The downtime ledger: a most-recent-first sequence of downtime events. */
module DowntimeStore {
  import opened Common
  import opened Text
  import opened Types

  /** What a report supplies for a new event. */
  datatype DowntimeInput = DowntimeInput(
    equipmentName: string,
    equipmentType: string,
    section: string,
    description: string,
    cause: DowntimeCause,
    reportedBy: string)

  /** The event `addDowntime` builds from a report, a fresh id and the current time. */
  function NewEvent(data: DowntimeInput, id: string, now: Timestamp): DowntimeEvent {
    DowntimeEvent(
      id := id,
      equipmentId := Slug(data.equipmentName),
      equipmentName := data.equipmentName,
      equipmentType := data.equipmentType,
      reportedBy := data.reportedBy,
      startTime := now,
      endTime := None,
      description := data.description,
      cause := data.cause,
      section := data.section,
      status := Open,
      rootCause := None,
      repairNotes := None,
      createdAt := now)
  }

  /** The `map` of `startRepair`: every event with the id is set in progress,
      whatever its status was; nothing else changes. */
  function MarkInProgress(ds: seq<DowntimeEvent>, id: string): (r: seq<DowntimeEvent>)
    ensures |r| == |ds|
    ensures forall i :: 0 <= i < |ds| && ds[i].id == id ==> r[i] == ds[i].(status := InProgress)
    ensures forall i :: 0 <= i < |ds| && ds[i].id != id ==> r[i] == ds[i]
  {
    if ds == [] then []
    else [if ds[0].id == id then ds[0].(status := InProgress) else ds[0]] + MarkInProgress(ds[1..], id)
  }

  /** The `map` of `closeDowntime`: every event with the id is closed at `now`
      with the given root cause and notes, verbatim; nothing else changes. */
  function MarkClosed(ds: seq<DowntimeEvent>, id: string, rootCause: string, notes: string,
                      now: Timestamp): (r: seq<DowntimeEvent>)
    ensures |r| == |ds|
    ensures forall i :: 0 <= i < |ds| && ds[i].id == id ==>
      r[i] == ds[i].(status := Closed, endTime := Some(now),
                     rootCause := Some(rootCause), repairNotes := Some(notes))
    ensures forall i :: 0 <= i < |ds| && ds[i].id != id ==> r[i] == ds[i]
  {
    if ds == [] then []
    else
      var e := ds[0];
      var e' := if e.id == id
                then e.(status := Closed, endTime := Some(now),
                        rootCause := Some(rootCause), repairNotes := Some(notes))
                else e;
      [e'] + MarkClosed(ds[1..], id, rootCause, notes, now)
  }

  /** `getActiveDowntimes`: the events that are not closed. */
  function ActiveDowntimes(ds: seq<DowntimeEvent>): (r: seq<DowntimeEvent>)
    ensures |r| <= |ds|
    ensures forall e :: e in r <==> e in ds && e.status != Closed
  {
    if ds == [] then []
    else (if ds[0].status != Closed then [ds[0]] else []) + ActiveDowntimes(ds[1..])
  }

  /** The filter keeps ledger order: it distributes over concatenation. */
  lemma {:induction false} ActiveDowntimesAppend(a: seq<DowntimeEvent>, b: seq<DowntimeEvent>)
    ensures ActiveDowntimes(a + b) == ActiveDowntimes(a) + ActiveDowntimes(b)
  {
    if a == [] {
      assert a + b == b;
    } else {
      assert (a + b)[1..] == a[1..] + b;
      ActiveDowntimesAppend(a[1..], b);
    }
  }

  /** The filter `getDowntimeForEquipment` searches with. */
  predicate ActiveFor(d: DowntimeEvent, equipmentName: string) {
    SameFold(d.equipmentName, equipmentName) && d.status != Closed
  }

  /** `getDowntimeForEquipment`: the first (most recent) event that is not
      closed and whose equipment name equals `equipmentName` ignoring case. */
  function DowntimeForEquipment(ds: seq<DowntimeEvent>, equipmentName: string): (r: Option<DowntimeEvent>)
    ensures r.None? <==> forall i :: 0 <= i < |ds| ==> !ActiveFor(ds[i], equipmentName)
    ensures r.Some? ==> exists i :: 0 <= i < |ds| && ds[i] == r.value && ActiveFor(ds[i], equipmentName)
                                    && forall j :: 0 <= j < i ==> !ActiveFor(ds[j], equipmentName)
  {
    if ds == [] then None
    else if ActiveFor(ds[0], equipmentName) then Some(ds[0])
    else
      var r := DowntimeForEquipment(ds[1..], equipmentName);
      assert forall i :: 1 <= i < |ds| ==> ds[i] == ds[1..][i - 1];
      if r.Some? then
        var i :| 0 <= i < |ds[1..]| && ds[1..][i] == r.value && ActiveFor(ds[1..][i], equipmentName)
                 && forall j :: 0 <= j < i ==> !ActiveFor(ds[1..][j], equipmentName);
        assert ds[i + 1] == r.value && forall j :: 0 <= j < i + 1 ==> !ActiveFor(ds[j], equipmentName);
        r
      else r
  }

  /** The lookup ignores case: "lhd 201" and "LHD 201" find the same event. */
  lemma DowntimeForEquipmentIgnoresCase(ds: seq<DowntimeEvent>, a: string, b: string)
    requires SameFold(a, b)
    ensures DowntimeForEquipment(ds, a) == DowntimeForEquipment(ds, b)
  {
  }

  /** An id used by no event leaves the ledger as it was. */
  lemma UnknownIdIsNoOp(ds: seq<DowntimeEvent>, id: string, rootCause: string, notes: string, now: Timestamp)
    requires forall i :: 0 <= i < |ds| ==> ds[i].id != id
    ensures MarkInProgress(ds, id) == ds
    ensures MarkClosed(ds, id, rootCause, notes, now) == ds
  {
  }

  /** The record-level lifecycle invariant: an event carries an end time, a
      root cause and repair notes exactly when it is closed, and it does not
      end before it starts. */
  predicate EventWellFormed(e: DowntimeEvent) {
    && (e.status == Closed <==> e.endTime.Some?)
    && (e.status == Closed <==> e.rootCause.Some?)
    && (e.status == Closed <==> e.repairNotes.Some?)
    && (e.endTime.Some? ==> e.startTime <= e.endTime.value)
  }

  predicate LedgerWellFormed(ds: seq<DowntimeEvent>) {
    forall i :: 0 <= i < |ds| ==> EventWellFormed(ds[i])
  }

  /** A new event is open, has none of the closing fields, and keeps the report. */
  lemma NewEventIsOpen(data: DowntimeInput, id: string, now: Timestamp)
    ensures EventWellFormed(NewEvent(data, id, now))
    ensures NewEvent(data, id, now).status == Open
    ensures NewEvent(data, id, now).equipmentName == data.equipmentName
    ensures NewEvent(data, id, now).equipmentId == Slug(data.equipmentName)
  {
  }

  /** Closing keeps the invariant when the close time is not before the start
      of the events it closes. */
  lemma MarkClosedKeepsWellFormed(ds: seq<DowntimeEvent>, id: string, rootCause: string, notes: string,
                                  now: Timestamp)
    requires LedgerWellFormed(ds)
    requires forall i :: 0 <= i < |ds| && ds[i].id == id ==> ds[i].startTime <= now
    ensures LedgerWellFormed(MarkClosed(ds, id, rootCause, notes, now))
  {
  }

  /** Starting a repair keeps the invariant when no event with that id is
      closed, which is what the Start Repair button guarantees. */
  lemma MarkInProgressKeepsWellFormed(ds: seq<DowntimeEvent>, id: string)
    requires LedgerWellFormed(ds)
    requires forall i :: 0 <= i < |ds| && ds[i].id == id ==> ds[i].status != Closed
    ensures LedgerWellFormed(MarkInProgress(ds, id))
  {
  }

  /** The ledger itself does not guard `startRepair`: applied to a closed
      event it reopens it while its end time, root cause and notes stay. */
  lemma StartRepairReopensClosed(ds: seq<DowntimeEvent>, id: string, k: nat)
    requires LedgerWellFormed(ds)
    requires k < |ds| && ds[k].id == id && ds[k].status == Closed
    ensures MarkInProgress(ds, id)[k].status == InProgress
    ensures MarkInProgress(ds, id)[k].endTime == ds[k].endTime
    ensures !LedgerWellFormed(MarkInProgress(ds, id))
  {
    assert !EventWellFormed(MarkInProgress(ds, id)[k]);
  }

  /** The ledger as the client holds it in memory. */
  class DowntimeLedger {
    var downtimes: seq<DowntimeEvent>

    /** Loading gives the stored list, or an empty one when nothing parses. */
    constructor (stored: Stored<seq<DowntimeEvent>>)
      ensures stored.Parsed? ==> downtimes == stored.value
      ensures !stored.Parsed? ==> downtimes == []
    {
      downtimes := if stored.Parsed? then stored.value else [];
    }

    /** `addDowntime`: the new open event goes in front of the old list. */
    method AddDowntime(data: DowntimeInput, id: string, now: Timestamp) returns (e: DowntimeEvent)
      modifies this
      ensures e == NewEvent(data, id, now)
      ensures e.status == Open && e.id == id && e.startTime == now && e.createdAt == now
      ensures e.endTime.None? && e.rootCause.None? && e.repairNotes.None?
      ensures e.equipmentId == Slug(data.equipmentName)
      ensures && e.equipmentName == data.equipmentName && e.equipmentType == data.equipmentType
              && e.section == data.section && e.description == data.description
              && e.cause == data.cause && e.reportedBy == data.reportedBy
      ensures downtimes == [e] + old(downtimes)
      ensures |downtimes| == |old(downtimes)| + 1 && downtimes[0] == e && downtimes[1..] == old(downtimes)
    {
      e := NewEvent(data, id, now);
      downtimes := [e] + downtimes;
      assert downtimes[1..] == old(downtimes);
    }

    /** `startRepair`. */
    method StartRepair(id: string)
      modifies this
      ensures downtimes == MarkInProgress(old(downtimes), id)
    {
      downtimes := MarkInProgress(downtimes, id);
    }

    /** `closeDowntime`. */
    method CloseDowntime(id: string, rootCause: string, repairNotes: string, now: Timestamp)
      modifies this
      ensures downtimes == MarkClosed(old(downtimes), id, rootCause, repairNotes, now)
    {
      downtimes := MarkClosed(downtimes, id, rootCause, repairNotes, now);
    }
  }
}
