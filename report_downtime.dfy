/** The full report-downtime page: validation, trimming, defaults, the two
    writes and the navigation that follows. */
module ReportDowntime {
  import opened Common
  import opened Text
  import opened Types
  import opened Session
  import opened RoleAccess
  import opened DowntimeStore
  import opened EquipmentStore
  import AppRoutes

  /** `s || "Unknown"` for an already trimmed field. */
  function OrUnknown(s: string): (r: string)
    ensures r != []
    ensures s != [] ==> r == s
  {
    if s == [] then "Unknown" else s
  }

  /** The reporter recorded on a downtime event: `user?.name || "Unknown"`,
      so an empty name also gives "Unknown". */
  function ReporterName(user: Option<User>): (r: string)
    ensures r != []
    ensures user.Some? && user.value.name != [] ==> r == user.value.name
    ensures (user.None? || user.value.name == []) ==> r == "Unknown"
  {
    if user.Some? then OrUnknown(user.value.name) else "Unknown"
  }

  /** The form's guard: trimmed name and description non-empty, cause chosen. */
  predicate ReportComplete(machineName: string, description: string, cause: Option<DowntimeCause>) {
    Trim(machineName) != [] && Trim(description) != [] && cause.Some?
  }

  /** What the page hands to `addDowntime`. */
  function ReportInput(user: Option<User>, machineName: string, machineType: string, section: string,
                       description: string, cause: DowntimeCause): (d: DowntimeInput)
    ensures d.equipmentName == Trim(machineName) && d.description == Trim(description)
    ensures d.equipmentType == (if Trim(machineType) == [] then "Unknown" else Trim(machineType))
    ensures d.section == (if Trim(section) == [] then "Unknown" else Trim(section))
    ensures d.cause == cause && d.reportedBy == ReporterName(user)
  {
    DowntimeInput(Trim(machineName), OrUnknown(Trim(machineType)), OrUnknown(Trim(section)),
                  Trim(description), cause, ReporterName(user))
  }

  /** Where the page goes after a report when no `onSuccess` is given. */
  function PathAfterReport(access: Access): (p: AppRoutes.RoutePath)
    ensures p == AppRoutes.DowntimesPath <==> access.canViewDowntimes
    ensures p == AppRoutes.EquipmentPath <==> !access.canViewDowntimes
  {
    if access.canViewDowntimes then AppRoutes.DowntimesPath else AppRoutes.EquipmentPath
  }

  /** For a signed-in reporter, the page navigated to after a report
      renders without a further redirect: the downtime list when the role
      may see it, the equipment page otherwise. */
  lemma PathAfterReportRenders(u: User)
    ensures AppRoutes.RouteTo(Some(PathAfterReport(UseRoleAccess(Some(u)))), Some(u)) ==
      AppRoutes.Render(if UseRoleAccess(Some(u)).canViewDowntimes then AppRoutes.DowntimesPage
                       else AppRoutes.EquipmentPage)
  {
  }

  /** `handleSubmit`. Returns whether the report was written and, when the
      page navigates, where to. No check for an already open event is made. */
  method HandleSubmit(ledger: DowntimeLedger, registry: EquipmentRegistry, user: Option<User>,
                      machineName: string, machineType: string, section: string, description: string,
                      cause: Option<DowntimeCause>, hasOnSuccess: bool, id: string, now: Timestamp)
    returns (submitted: bool, navigateTo: Option<AppRoutes.RoutePath>)
    modifies ledger, registry
    ensures submitted <==> ReportComplete(machineName, description, cause)
    ensures !submitted ==> && ledger.downtimes == old(ledger.downtimes)
                           && registry.equipment == old(registry.equipment)
                           && navigateTo == None
    ensures submitted ==> (ledger.downtimes ==
      [NewEvent(ReportInput(user, machineName, machineType, section, description, cause.value), id, now)]
      + old(ledger.downtimes))
    ensures submitted ==> registry.equipment == WithStatusByName(old(registry.equipment), Trim(machineName), Down)
    ensures submitted ==> (navigateTo ==
      if hasOnSuccess then None else Some(PathAfterReport(UseRoleAccess(user))))
  {
    if !ReportComplete(machineName, description, cause) {
      return false, None;
    }
    var data := ReportInput(user, machineName, machineType, section, description, cause.value);
    var _ := ledger.AddDowntime(data, id, now);
    registry.SetEquipmentDown(Trim(machineName));
    submitted := true;
    if hasOnSuccess {
      navigateTo := None;
    } else {
      navigateTo := Some(PathAfterReport(UseRoleAccess(user)));
    }
  }
}
