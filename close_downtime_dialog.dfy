/** The close-downtime dialog: validates the root cause, closes the event and
    puts the equipment named on the event back to running. */
module CloseDowntimeDialog {
  import opened Common
  import opened Text
  import opened Types
  import opened DowntimeStore
  import opened EquipmentStore

  /** `downtimes.find((d) => d.id === downtimeId)`: the first event with the id. */
  function FindById(ds: seq<DowntimeEvent>, id: string): (r: Option<DowntimeEvent>)
    ensures r.None? <==> forall i :: 0 <= i < |ds| ==> ds[i].id != id
    ensures r.Some? ==> exists i :: 0 <= i < |ds| && ds[i] == r.value && ds[i].id == id
                                    && forall j :: 0 <= j < i ==> ds[j].id != id
  {
    if ds == [] then None
    else if ds[0].id == id then Some(ds[0])
    else
      var r := FindById(ds[1..], id);
      assert forall i :: 1 <= i < |ds| ==> ds[i] == ds[1..][i - 1];
      if r.Some? then
        var i :| 0 <= i < |ds[1..]| && ds[1..][i] == r.value && ds[1..][i].id == id
                 && forall j :: 0 <= j < i ==> ds[1..][j].id != id;
        assert ds[i + 1] == r.value && forall j :: 0 <= j < i + 1 ==> ds[j].id != id;
        r
      else r
  }

  /** The registry after a close: the equipment named on the event (as it was
      found before the close) goes back to running; no event, no change. */
  function RegistryAfterClose(es: seq<Equipment>, found: Option<DowntimeEvent>): seq<Equipment> {
    if found.Some? then WithStatusByName(es, found.value.equipmentName, Running) else es
  }

  /** The dialog's two text inputs. */
  class CloseForm {
    var rootCause: string
    var notes: string

    constructor ()
      ensures rootCause == "" && notes == ""
    {
      rootCause, notes := "", "";
    }

    /** `handleClose`. The event's current status is not checked. */
    method HandleClose(ledger: DowntimeLedger, registry: EquipmentRegistry, downtimeId: string, now: Timestamp)
      returns (closed: bool)
      modifies this, ledger, registry
      ensures closed <==> Trim(old(rootCause)) != []
      ensures !closed ==> && ledger.downtimes == old(ledger.downtimes)
                          && registry.equipment == old(registry.equipment)
                          && rootCause == old(rootCause) && notes == old(notes)
      ensures closed ==> (ledger.downtimes ==
        MarkClosed(old(ledger.downtimes), downtimeId, Trim(old(rootCause)), Trim(old(notes)), now))
      ensures closed ==> (registry.equipment ==
        RegistryAfterClose(old(registry.equipment), FindById(old(ledger.downtimes), downtimeId)))
      ensures closed ==> rootCause == "" && notes == ""
    {
      var dt := FindById(ledger.downtimes, downtimeId);
      if Trim(rootCause) == [] {
        return false;
      }
      ledger.CloseDowntime(downtimeId, Trim(rootCause), Trim(notes), now);
      if dt.Some? {
        registry.SetEquipmentRunning(dt.value.equipmentName);
      }
      rootCause, notes := "", "";
      closed := true;
    }
  }

  /** Closing an id no event has changes neither the ledger nor the registry. */
  lemma {:induction false} CloseUnknownIdIsNoOp(ds: seq<DowntimeEvent>, es: seq<Equipment>, id: string,
                                               rootCause: string, notes: string, now: Timestamp)
    requires forall i :: 0 <= i < |ds| ==> ds[i].id != id
    ensures MarkClosed(ds, id, rootCause, notes, now) == ds
    ensures RegistryAfterClose(es, FindById(ds, id)) == es
  {
    UnknownIdIsNoOp(ds, id, rootCause, notes, now);
  }

  /** A close marks the found event closed and sets running exactly the
      records whose name matches the event's stored name. */
  lemma {:induction false} CloseTargetsEventName(ds: seq<DowntimeEvent>, es: seq<Equipment>, k: nat, id: string,
                                                rootCause: string, notes: string, now: Timestamp)
    requires k < |ds| && ds[k].id == id
    requires forall j :: 0 <= j < k ==> ds[j].id != id
    ensures MarkClosed(ds, id, rootCause, notes, now)[k].status == Closed
    ensures MarkClosed(ds, id, rootCause, notes, now)[k].rootCause == Some(rootCause)
    ensures forall i :: 0 <= i < |es| ==>
      RegistryAfterClose(es, FindById(ds, id))[i].status ==
        (if SameFold(es[i].name, ds[k].equipmentName) then Running else es[i].status)
  {
    var found := FindById(ds, id);
    var i :| 0 <= i < |ds| && ds[i] == found.value && ds[i].id == id
             && forall j :: 0 <= j < i ==> ds[j].id != id;
    assert i == k;
  }
}
