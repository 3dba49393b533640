/** The report-breakdown dialog opened from an equipment card. */
module ReportBreakdownDialog {
  import opened Common
  import opened Text
  import opened Types
  import opened Session
  import opened DowntimeStore
  import opened EquipmentStore
  import opened ReportDowntime

  /** What the dialog hands to `addDowntime`: name, type and section come
      untrimmed from the card; only the description is trimmed. */
  function BreakdownInput(user: Option<User>, equipmentName: string, section: string, machineType: string,
                          description: string, cause: DowntimeCause): (d: DowntimeInput)
    ensures d.equipmentName == equipmentName && d.section == section && d.equipmentType == machineType
    ensures d.description == Trim(description) && d.cause == cause && d.reportedBy == ReporterName(user)
  {
    DowntimeInput(equipmentName, machineType, section, Trim(description), cause, ReporterName(user))
  }

  /** The dialog's own inputs. */
  class BreakdownForm {
    var description: string
    var cause: Option<DowntimeCause>

    constructor ()
      ensures description == "" && cause == None
    {
      description, cause := "", None;
    }

    /** `handleSubmit`: guard, add the event, set the same name down, reset. */
    method HandleSubmit(ledger: DowntimeLedger, registry: EquipmentRegistry, user: Option<User>,
                        equipmentName: string, section: string, machineType: string,
                        id: string, now: Timestamp)
      returns (submitted: bool)
      modifies this, ledger, registry
      ensures submitted <==> Trim(old(description)) != [] && old(cause).Some?
      ensures !submitted ==> && ledger.downtimes == old(ledger.downtimes)
                             && registry.equipment == old(registry.equipment)
                             && description == old(description) && cause == old(cause)
      ensures submitted ==> (ledger.downtimes ==
        [NewEvent(BreakdownInput(user, equipmentName, section, machineType, old(description), old(cause).value),
                  id, now)]
        + old(ledger.downtimes))
      ensures submitted ==> registry.equipment == WithStatusByName(old(registry.equipment), equipmentName, Down)
      ensures submitted ==> description == "" && cause == None
    {
      if Trim(description) == [] || cause.None? {
        return false;
      }
      var data := BreakdownInput(user, equipmentName, section, machineType, description, cause.value);
      var _ := ledger.AddDowntime(data, id, now);
      registry.SetEquipmentDown(equipmentName);
      description, cause := "", None;
      submitted := true;
    }
  }
}
