/** The equipment registry: a seeded sequence of equipment records. */
module EquipmentStore {
  import opened Common
  import opened Text
  import opened Types

  function Machine(id: string, name: string, machineType: string, section: string,
                   status: EquipmentStatus): Equipment {
    Equipment(id, name, machineType, section, section, status, None, None, None)
  }

  /** `DEFAULT_EQUIPMENT`: the registry when nothing usable is stored. */
  const DefaultEquipment: seq<Equipment> := [
    Machine("1", "LHD 201", "LHD", "Canaan", Running),
    Machine("2", "LHD 202", "LHD", "Eureka", Running),
    Machine("3", "Drill Rig 101", "Drill Rig", "Rockets", Down),
    Machine("4", "Bolter 301", "Bolter", "Canaan", Running),
    Machine("5", "Truck 401", "Truck", "Eureka", Idle),
    Machine("6", "Grader 501", "Grader", "Rockets", UnderRepair),
    Machine("7", "LHD 203", "LHD", "Canaan", Running),
    Machine("8", "Utility 601", "Utility Vehicle", "Eureka", Running)
  ]

  /** Eight records with ids "1" to "8" and the seed's names in order;
      Drill Rig 101 is down, Truck 401 idle, Grader 501 under repair and
      the rest running. */
  lemma SeedFacts()
    ensures |DefaultEquipment| == 8
    ensures forall i :: 0 <= i < 8 ==> DefaultEquipment[i].id == [('1' as int + i) as char]
    ensures DefaultEquipment[0].name == "LHD 201" && DefaultEquipment[1].name == "LHD 202"
    ensures DefaultEquipment[2].name == "Drill Rig 101" && DefaultEquipment[3].name == "Bolter 301"
    ensures DefaultEquipment[4].name == "Truck 401" && DefaultEquipment[5].name == "Grader 501"
    ensures DefaultEquipment[6].name == "LHD 203" && DefaultEquipment[7].name == "Utility 601"
    ensures forall i :: 0 <= i < 8 ==>
      DefaultEquipment[i].status ==
        (if DefaultEquipment[i].name == "Drill Rig 101" then Down
         else if DefaultEquipment[i].name == "Truck 401" then Idle
         else if DefaultEquipment[i].name == "Grader 501" then UnderRepair
         else Running)
  {
  }

  /** No two seed records share a name. */
  lemma SeedNamesDistinct()
    ensures forall i, j :: 0 <= i < j < |DefaultEquipment| ==> DefaultEquipment[i].name != DefaultEquipment[j].name
  {
  }

  /** The `map` of `updateStatus`: exact id match. */
  function WithStatusById(es: seq<Equipment>, id: string, s: EquipmentStatus): (r: seq<Equipment>)
    ensures |r| == |es|
    ensures forall i :: 0 <= i < |es| && es[i].id == id ==> r[i] == es[i].(status := s)
    ensures forall i :: 0 <= i < |es| && es[i].id != id ==> r[i] == es[i]
  {
    if es == [] then []
    else [if es[0].id == id then es[0].(status := s) else es[0]] + WithStatusById(es[1..], id, s)
  }

  /** The `map` of `setEquipmentDown` and `setEquipmentRunning`: every record
      whose name equals `name` ignoring case gets the status. */
  function WithStatusByName(es: seq<Equipment>, name: string, s: EquipmentStatus): (r: seq<Equipment>)
    ensures |r| == |es|
    ensures forall i :: 0 <= i < |es| && SameFold(es[i].name, name) ==> r[i] == es[i].(status := s)
    ensures forall i :: 0 <= i < |es| && !SameFold(es[i].name, name) ==> r[i] == es[i]
  {
    if es == [] then []
    else [if SameFold(es[0].name, name) then es[0].(status := s) else es[0]]
         + WithStatusByName(es[1..], name, s)
  }

  /** Setting a status by name twice is the same as setting it once. */
  lemma {:induction false} WithStatusByNameIdempotent(es: seq<Equipment>, name: string, s: EquipmentStatus)
    ensures WithStatusByName(WithStatusByName(es, name, s), name, s) == WithStatusByName(es, name, s)
  {
    if es != [] {
      WithStatusByNameIdempotent(es[1..], name, s);
      var once := WithStatusByName(es, name, s);
      assert once[1..] == WithStatusByName(es[1..], name, s);
    }
  }

  /** With no match, the registry is unchanged. */
  lemma NoMatchIsNoOp(es: seq<Equipment>, id: string, name: string, s: EquipmentStatus)
    ensures (forall i :: 0 <= i < |es| ==> es[i].id != id) ==> WithStatusById(es, id, s) == es
    ensures (forall i :: 0 <= i < |es| ==> !SameFold(es[i].name, name)) ==> WithStatusByName(es, name, s) == es
  {
  }

  /** The registry as the client holds it in memory. */
  class EquipmentRegistry {
    var equipment: seq<Equipment>

    /** Loading gives the stored list, or the seed when nothing is stored or
        the stored text does not parse. */
    constructor (stored: Stored<seq<Equipment>>)
      ensures stored.Parsed? ==> equipment == stored.value
      ensures !stored.Parsed? ==> equipment == DefaultEquipment
    {
      equipment := if stored.Parsed? then stored.value else DefaultEquipment;
    }

    /** `updateStatus`. */
    method UpdateStatus(id: string, s: EquipmentStatus)
      modifies this
      ensures equipment == WithStatusById(old(equipment), id, s)
    {
      equipment := WithStatusById(equipment, id, s);
    }

    /** `setEquipmentDown`: every matching record, not only the first. */
    method SetEquipmentDown(name: string)
      modifies this
      ensures equipment == WithStatusByName(old(equipment), name, Down)
    {
      equipment := WithStatusByName(equipment, name, Down);
    }

    /** `setEquipmentRunning`. */
    method SetEquipmentRunning(name: string)
      modifies this
      ensures equipment == WithStatusByName(old(equipment), name, Running)
    {
      equipment := WithStatusByName(equipment, name, Running);
    }
  }
}
