/** The static role permission table and its lookup. */
module RoleAccess {
  import opened Common
  import opened Types
  import opened Session

  /** The eight capability flags. */
  datatype Access = Access(
    canViewDashboard: bool,
    canViewEquipment: bool,
    canReportDowntime: bool,
    canViewDowntimes: bool,
    canStartRepair: bool,
    canCloseDowntime: bool,
    canManageEquipment: bool,
    canManageUsers: bool)

  const NoAccess: Access := Access(false, false, false, false, false, false, false, false)

  /** The `ACCESS_MAP` table, one independent row per role. */
  function AccessFor(r: UserRole): Access {
    match r
    case Operator =>      Access(false, true, true, false, false, false, false, false)
    case TeamLeader =>    Access(true,  true, true, false, false, false, false, false)
    case Supervisor =>    Access(true,  true, true, false, false, false, false, false)
    case Maintenance =>   Access(true,  true, true, true,  true,  true,  false, false)
    case Engineer =>      Access(true,  true, true, true,  true,  true,  false, false)
    case OverseerMiner => Access(true,  true, true, true,  false, false, false, false)
    case ShiftBoss =>     Access(true,  true, true, false, false, false, false, false)
    case MineCaptain =>   Access(true,  true, true, true,  false, false, true,  false)
    case MineManager =>   Access(true,  true, true, true,  false, false, true,  true)
    case Admin =>         Access(true,  true, true, true,  true,  true,  true,  true)
  }

  /** `useRoleAccess`: no user has no capability at all; a user has exactly
      the row of their role. */
  function UseRoleAccess(user: Option<User>): (a: Access)
    ensures user.None? ==>
      && !a.canViewDashboard && !a.canViewEquipment && !a.canReportDowntime
      && !a.canViewDowntimes && !a.canStartRepair && !a.canCloseDowntime
      && !a.canManageEquipment && !a.canManageUsers
    ensures user.Some? ==> a == AccessFor(user.value.role)
  {
    if user.None? then NoAccess else AccessFor(user.value.role)
  }

  /** Every role may view equipment and report downtime. */
  lemma EveryRoleViewsAndReports(r: UserRole)
    ensures AccessFor(r).canViewEquipment && AccessFor(r).canReportDowntime
  {
  }

  /** The operator is the only role without the dashboard. */
  lemma OnlyOperatorLacksDashboard(r: UserRole)
    ensures !AccessFor(r).canViewDashboard <==> r == Operator
  {
  }

  /** Starting a repair and closing a downtime always go together, and only
      the maintenance team, engineers and admins have them. */
  lemma RepairRights(r: UserRole)
    ensures AccessFor(r).canStartRepair == AccessFor(r).canCloseDowntime
    ensures AccessFor(r).canStartRepair <==> r in {Maintenance, Engineer, Admin}
  {
  }

  /** Whoever can start a repair can also see the downtime list. */
  lemma RepairImpliesDowntimeList(r: UserRole)
    ensures AccessFor(r).canStartRepair ==> AccessFor(r).canViewDowntimes
  {
  }

  /** User management is for mine managers and admins, and implies equipment management. */
  lemma UserManagementRights(r: UserRole)
    ensures AccessFor(r).canManageUsers <==> r in {MineManager, Admin}
    ensures AccessFor(r).canManageUsers ==> AccessFor(r).canManageEquipment
  {
  }

  /** The admin holds every capability. */
  lemma AdminHoldsAll()
    ensures AccessFor(Admin) == Access(true, true, true, true, true, true, true, true)
  {
  }
}
