/** Whole lifecycles through the handlers, on an empty ledger and a stored
    registry: what a report, a repair start and a close leave behind. */
module Lifecycle {
  import opened Common
  import opened Text
  import opened Types
  import opened Session
  import opened DowntimeStore
  import opened EquipmentStore
  import opened CloseDowntimeDialog
  import opened ReportDowntime
  import opened ReportBreakdownDialog

  /** The event a breakdown report on machine `m` opens, as it ends up after
      the close: closed at `closedAt` with the trimmed root cause and notes. */
  function ClosedReport(m: Equipment, user: Option<User>, description: string, cause: DowntimeCause,
                        rootCause: string, notes: string, id: string,
                        reportedAt: Timestamp, closedAt: Timestamp): DowntimeEvent
  {
    NewEvent(BreakdownInput(user, m.name, m.section, m.machineType, description, cause), id, reportedAt)
      .(status := Closed, endTime := Some(closedAt),
        rootCause := Some(Trim(rootCause)), repairNotes := Some(Trim(notes)))
  }

  /** The closed event keeps what the report recorded and is well formed. */
  lemma ClosedReportFacts(m: Equipment, user: Option<User>, description: string, cause: DowntimeCause,
                          rootCause: string, notes: string, id: string,
                          reportedAt: Timestamp, closedAt: Timestamp)
    requires reportedAt <= closedAt
    ensures var e := ClosedReport(m, user, description, cause, rootCause, notes, id, reportedAt, closedAt);
      && e.id == id && e.status == Closed && e.cause == cause
      && e.equipmentName == m.name && e.equipmentId == Slug(m.name)
      && e.reportedBy == ReporterName(user) && e.description == Trim(description)
      && e.startTime == reportedAt && e.endTime == Some(closedAt)
      && e.rootCause == Some(Trim(rootCause)) && e.repairNotes == Some(Trim(notes))
      && EventWellFormed(e)
  {
  }

  /** A breakdown reported from the card of machine `k` of a stored registry,
      then started and closed from the downtimes page. Starting the repair
      writes only the ledger, so the registry loaded beside it still shows
      the machine `down` (nothing sets `under_repair`); the close puts it
      back to running, and the ledger's one event is the closed report.
      The model loads the stores afresh for each step from what the previous
      one saved; in the app the close dialog stays mounted inside the
      downtimes page, so its copy of the ledger may predate the start. */
  method BreakdownRepairClose(es: seq<Equipment>, user: Option<User>, k: nat, description: string,
                              cause: DowntimeCause, rootCause: string, notes: string, id: string,
                              reportedAt: Timestamp, closedAt: Timestamp)
    returns (afterReport: EquipmentStatus, afterStart: EquipmentStatus, startStatus: DowntimeStatus,
             ledger: seq<DowntimeEvent>, afterClose: EquipmentStatus)
    requires k < |es|
    requires Trim(description) != [] && Trim(rootCause) != []
    ensures afterReport == Down && afterStart == Down && startStatus == InProgress
    ensures ledger == [ClosedReport(es[k], user, description, cause, rootCause, notes, id, reportedAt, closedAt)]
    ensures afterClose == Running
  {
    var reported, downRegistry := ReportFromCard(es, user, k, description, cause, id, reportedAt);
    var e := NewEvent(BreakdownInput(user, es[k].name, es[k].section, es[k].machineType, description, cause),
                      id, reportedAt);
    afterReport := downRegistry[k].status;

    var store := new DowntimeLedger(Parsed(reported));
    var equipment := new EquipmentRegistry(Parsed(downRegistry));
    store.StartRepair(id);
    var started := store.downtimes;
    SingleEventLifecycle(e, Trim(rootCause), Trim(notes), closedAt);
    startStatus := started[0].status;
    afterStart := equipment.equipment[k].status;

    var runningRegistry;
    ledger, runningRegistry := CloseFromDialog(started, downRegistry, id, rootCause, notes, closedAt);
    afterClose := runningRegistry[k].status;
  }

  /** The report-breakdown dialog on machine `k` of a stored registry, with
      an empty ledger: the ledger and registry it stores. */
  method ReportFromCard(es: seq<Equipment>, user: Option<User>, k: nat, description: string,
                        cause: DowntimeCause, id: string, now: Timestamp)
    returns (ledger: seq<DowntimeEvent>, registry: seq<Equipment>)
    requires k < |es| && Trim(description) != []
    ensures ledger == [NewEvent(BreakdownInput(user, es[k].name, es[k].section, es[k].machineType,
                                               description, cause), id, now)]
    ensures registry == WithStatusByName(es, es[k].name, Down)
  {
    var store := new DowntimeLedger(Absent);
    var equipment := new EquipmentRegistry(Parsed(es));
    var form := new BreakdownForm();
    form.description, form.cause := description, Some(cause);
    var submitted := form.HandleSubmit(store, equipment, user, es[k].name, es[k].section, es[k].machineType,
                                       id, now);
    ledger, registry := store.downtimes, equipment.equipment;
  }

  /** The close dialog over a stored ledger and registry, with a non-blank
      root cause: the ledger and registry it stores. */
  method CloseFromDialog(ds: seq<DowntimeEvent>, es: seq<Equipment>, id: string,
                         rootCause: string, notes: string, now: Timestamp)
    returns (ledger: seq<DowntimeEvent>, registry: seq<Equipment>)
    requires Trim(rootCause) != []
    ensures ledger == MarkClosed(ds, id, Trim(rootCause), Trim(notes), now)
    ensures registry == RegistryAfterClose(es, FindById(ds, id))
  {
    var store := new DowntimeLedger(Parsed(ds));
    var equipment := new EquipmentRegistry(Parsed(es));
    var form := new CloseForm();
    form.rootCause, form.notes := rootCause, notes;
    var closed := form.HandleClose(store, equipment, id, now);
    ledger, registry := store.downtimes, equipment.equipment;
  }

  /** One open event, started and then closed. */
  lemma SingleEventLifecycle(e: DowntimeEvent, rootCause: string, notes: string, now: Timestamp)
    requires e.status == Open
    ensures MarkInProgress([e], e.id) == [e.(status := InProgress)]
    ensures FindById([e.(status := InProgress)], e.id) == Some(e.(status := InProgress))
    ensures MarkClosed([e.(status := InProgress)], e.id, rootCause, notes, now) ==
      [e.(status := Closed, endTime := Some(now), rootCause := Some(rootCause), repairNotes := Some(notes))]
  {
  }

  /** The report page twice for the same machine: there is no check for an
      open event, so both reports stay active, and the equipment lookup finds
      the later one, which sits first. */
  method ReportTwice(es: seq<Equipment>, user: Option<User>, machineName: string, machineType: string,
                     section: string, description: string, cause: DowntimeCause,
                     firstId: string, secondId: string, firstAt: Timestamp, secondAt: Timestamp)
    returns (active: seq<DowntimeEvent>, found: Option<DowntimeEvent>)
    requires Trim(machineName) != [] && Trim(description) != []
    ensures |active| == 2
    ensures active[0].id == secondId && active[1].id == firstId
    ensures active[0].status == Open && active[1].status == Open
    ensures found == Some(active[0])
  {
    var d := ReportInput(user, machineName, machineType, section, description, cause);
    NewEventIsOpen(d, firstId, firstAt);
    NewEventIsOpen(d, secondId, secondAt);
    var once, registry := ReportFromPage([], es, user, machineName, machineType, section, description, cause,
                                         firstId, firstAt);
    var twice, _ := ReportFromPage(once, registry, user, machineName, machineType, section, description, cause,
                                   secondId, secondAt);
    assert once == [NewEvent(d, firstId, firstAt)];
    assert twice == [NewEvent(d, secondId, secondAt), NewEvent(d, firstId, firstAt)];
    TwoOpenEvents(twice[0], twice[1], Trim(machineName));
    active := ActiveDowntimes(twice);
    found := DowntimeForEquipment(twice, Trim(machineName));
  }

  /** The report page over a stored ledger and registry, with a complete
      form and an `onSuccess` callback: the ledger and registry it stores. */
  method ReportFromPage(ds: seq<DowntimeEvent>, es: seq<Equipment>, user: Option<User>, machineName: string,
                        machineType: string, section: string, description: string, cause: DowntimeCause,
                        id: string, now: Timestamp)
    returns (ledger: seq<DowntimeEvent>, registry: seq<Equipment>)
    requires Trim(machineName) != [] && Trim(description) != []
    ensures ledger == [NewEvent(ReportInput(user, machineName, machineType, section, description, cause), id, now)] + ds
    ensures registry == WithStatusByName(es, Trim(machineName), Down)
  {
    var store := new DowntimeLedger(Parsed(ds));
    var equipment := new EquipmentRegistry(Parsed(es));
    var ok, _ := ReportDowntime.HandleSubmit(store, equipment, user, machineName, machineType, section,
                                             description, Some(cause), true, id, now);
    ledger, registry := store.downtimes, equipment.equipment;
  }

  lemma TwoOpenEvents(a: DowntimeEvent, b: DowntimeEvent, name: string)
    requires a.status != Closed && b.status != Closed && SameFold(a.equipmentName, name)
    ensures ActiveDowntimes([a, b]) == [a, b]
    ensures DowntimeForEquipment([a, b], name) == Some(a)
  {
    assert [a, b][1..] == [b];
  }
}
