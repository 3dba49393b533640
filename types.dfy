/** The domain types of the client: roles, equipment, downtime events and the
    two label tables. */
module Types {
  import opened Common

  /** An instant, in milliseconds; the client stores it as an ISO-8601 string. */
  type Timestamp = nat

  datatype UserRole =
    | Operator | TeamLeader | Supervisor | Maintenance | Engineer
    | OverseerMiner | ShiftBoss | MineCaptain | MineManager | Admin

  /** Every role, in declaration order. */
  const AllRoles: seq<UserRole> :=
    [Operator, TeamLeader, Supervisor, Maintenance, Engineer,
     OverseerMiner, ShiftBoss, MineCaptain, MineManager, Admin]

  /** The `ROLE_LABELS` table. */
  function RoleLabel(r: UserRole): string {
    match r
    case Operator => "Operator"
    case TeamLeader => "Team Leader"
    case Supervisor => "Supervisor"
    case Maintenance => "Maintenance Team"
    case Engineer => "Engineer"
    case OverseerMiner => "Overseer Miner"
    case ShiftBoss => "Shift Boss"
    case MineCaptain => "Mine Captain"
    case MineManager => "Mine Manager"
    case Admin => "Admin"
  }

  /** There are exactly ten roles. */
  lemma AllRolesEnumerated()
    ensures |AllRoles| == 10
    ensures forall r: UserRole :: r in AllRoles
    ensures forall i, j :: 0 <= i < j < |AllRoles| ==> AllRoles[i] != AllRoles[j]
  {
    forall r: UserRole ensures r in AllRoles {
      match r
      case Operator => assert AllRoles[0] == r;
      case TeamLeader => assert AllRoles[1] == r;
      case Supervisor => assert AllRoles[2] == r;
      case Maintenance => assert AllRoles[3] == r;
      case Engineer => assert AllRoles[4] == r;
      case OverseerMiner => assert AllRoles[5] == r;
      case ShiftBoss => assert AllRoles[6] == r;
      case MineCaptain => assert AllRoles[7] == r;
      case MineManager => assert AllRoles[8] == r;
      case Admin => assert AllRoles[9] == r;
    }
  }

  /** Every role has a non-empty label, and no two roles share one. */
  lemma RoleLabelsTotalAndDistinct()
    ensures forall r :: RoleLabel(r) != []
    ensures forall r1, r2 :: RoleLabel(r1) == RoleLabel(r2) ==> r1 == r2
  {
  }

  datatype EquipmentStatus = Running | Down | UnderRepair | Idle

  datatype Equipment = Equipment(
    id: string,
    name: string,
    machineType: string,
    section: string,
    location: string,
    status: EquipmentStatus,
    serialNumber: Option<string>,
    installationDate: Option<string>,
    lastMaintenance: Option<string>)

  datatype DowntimeCause =
    | Mechanical | Electrical | Hydraulic | Structural | OperatorError | Scheduled | Other

  /** Every cause, in declaration order. */
  const AllCauses: seq<DowntimeCause> :=
    [Mechanical, Electrical, Hydraulic, Structural, OperatorError, Scheduled, Other]

  /** The string a cause is stored as. */
  function CauseKey(c: DowntimeCause): string {
    match c
    case Mechanical => "mechanical"
    case Electrical => "electrical"
    case Hydraulic => "hydraulic"
    case Structural => "structural"
    case OperatorError => "operator_error"
    case Scheduled => "scheduled"
    case Other => "other"
  }

  /** The `CAUSE_LABELS` table. */
  function CauseLabel(c: DowntimeCause): string {
    match c
    case Mechanical => "Mechanical"
    case Electrical => "Electrical"
    case Hydraulic => "Hydraulic"
    case Structural => "Structural"
    case OperatorError => "Operator Error"
    case Scheduled => "Scheduled Maintenance"
    case Other => "Other"
  }

  /** There are exactly seven causes; each has a non-empty label and a distinct key. */
  lemma AllCausesEnumerated()
    ensures |AllCauses| == 7
    ensures forall c: DowntimeCause :: c in AllCauses
    ensures forall i, j :: 0 <= i < j < |AllCauses| ==> AllCauses[i] != AllCauses[j]
    ensures forall c :: CauseLabel(c) != []
    ensures forall c1, c2 :: CauseKey(c1) == CauseKey(c2) ==> c1 == c2
  {
    forall c: DowntimeCause ensures c in AllCauses {
      match c
      case Mechanical => assert AllCauses[0] == c;
      case Electrical => assert AllCauses[1] == c;
      case Hydraulic => assert AllCauses[2] == c;
      case Structural => assert AllCauses[3] == c;
      case OperatorError => assert AllCauses[4] == c;
      case Scheduled => assert AllCauses[5] == c;
      case Other => assert AllCauses[6] == c;
    }
  }

  datatype DowntimeStatus = Open | InProgress | Closed

  /** A downtime event. Only `endTime`, `rootCause` and `repairNotes` may be absent. */
  datatype DowntimeEvent = DowntimeEvent(
    id: string,
    equipmentId: string,
    equipmentName: string,
    equipmentType: string,
    reportedBy: string,
    startTime: Timestamp,
    endTime: Option<Timestamp>,
    description: string,
    cause: DowntimeCause,
    section: string,
    status: DowntimeStatus,
    rootCause: Option<string>,
    repairNotes: Option<string>,
    createdAt: Timestamp)
}
