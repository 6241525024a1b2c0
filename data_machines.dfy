/** The split-out machine table (src/data/machines.ts) and `getMachine`. */
module DataMachines {
  import opened Wrappers
  import opened Catalog

  const Machines: seq<Machine> := [
    Machine("refinery_1", "Distillation (Stage I)", 0, 6, 3, "../assets/Distillation_(Stage_I).png"),
    Machine("refinery_2", "Distillation (Stage II)", 0, 8, 3, "../assets/Distillation_(Stage_II).png"),
    Machine("refinery_3", "Distillation (Stage III)", 0, 8, 3, "../assets/Distillation_(Stage_III).png")
  ]

  /** `getMachine`: the first machine with the id; None where the source's `!` hides `undefined`. */
  function GetMachine(machineId: string): (r: Option<Machine>)
    ensures r.Some? <==> machineId in ["refinery_1", "refinery_2", "refinery_3"]
    ensures r.Some? ==> r.value.machineId == machineId && r.value in Machines
  {
    MachineIdsInOrder();
    FoundIffListed(Machines, MachineKey, machineId);
    FindById(Machines, MachineKey, machineId)
  }

  /** The machine ids of the table, in table order. */
  lemma MachineIdsInOrder()
    ensures Ids(Machines, MachineKey) == ["refinery_1", "refinery_2", "refinery_3"]
  {
  }

  /** The ids refinery_1, refinery_2 and refinery_3 are distinct. */
  lemma MachineIdsDistinct()
    ensures DistinctKeys(Machines, MachineKey)
  {
    MachineIdsInOrder();
    NoDuplicatesCons("refinery_3", []);
    NoDuplicatesCons("refinery_2", ["refinery_3"]);
    NoDuplicatesCons("refinery_1", ["refinery_2", "refinery_3"]);
    DistinctKeysIffNoDuplicates(Machines, MachineKey);
  }

  /** Each machine id resolves to exactly its own table entry. */
  lemma MachineLookupInverse(i: nat)
    requires i < |Machines|
    ensures GetMachine(Machines[i].machineId) == Some(Machines[i])
  {
    MachineIdsDistinct();
    LookupOfKeyIsEntry(Machines, MachineKey, i);
  }

  /** Energy consumption, workers and maintenance are non-negative for every machine. */
  lemma MachineFiguresNonNegative()
    ensures forall m :: m in Machines ==> m.energyConsumption >= 0 && m.workers >= 0 && m.maintenance >= 0
  {
  }
}
