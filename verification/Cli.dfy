/** How the command line selects hosts and composes the plan of a batch. */
module Cli {

  import opened Wrappers
  import opened Model
  import opened Jobs
  import opened Batch
  import opened BatchSystem

  const PER_MACHINE_PHASES: set<string> := {"setup", "hardware", "stress"}
  const VXLAN_VNI: nat := 4242

  datatype Config = Config(
    fioProfiles: seq<string>, verifyJumbo: bool, maxAttempts: nat,
    failOnSmartError: bool, failOnMemoryError: bool, snapshot: string)

  datatype Exit = UnknownMachines(names: seq<string>) | TooFewMachines

  // ---- Selecting hosts -----------------------------------------------------------

  /** The last inventory entry of each name, as a dictionary built in order keeps. */
  function ByName(inventory: seq<MachineSpec>, name: string): Option<MachineSpec> {
    if inventory == [] then None
    else if inventory[|inventory| - 1].name == name then Some(inventory[|inventory| - 1])
    else ByName(inventory[..|inventory| - 1], name)
  }

  /** `m` is the entry with that name after which there is no other. */
  predicate LastNamed(inventory: seq<MachineSpec>, name: string, m: MachineSpec) {
    exists k | 0 <= k < |inventory| ::
      && inventory[k] == m && m.name == name
      && forall j | k < j < |inventory| :: inventory[j].name != name
  }

  predicate Known(inventory: seq<MachineSpec>, name: string) {
    exists m | m in inventory :: m.name == name
  }

  lemma {:induction false} ByNameFinds(inventory: seq<MachineSpec>, name: string)
    ensures ByName(inventory, name).Some? <==> Known(inventory, name)
    ensures ByName(inventory, name).Some? ==> LastNamed(inventory, name, ByName(inventory, name).value)
  {
    if inventory != [] {
      var n := |inventory| - 1;
      ByNameFinds(inventory[..n], name);
      assert inventory == inventory[..n] + [inventory[n]];
      if inventory[n].name != name && Known(inventory, name) {
        var m :| m in inventory && m.name == name;
        assert m in inventory[..n];
        var k :| 0 <= k < n && inventory[..n][k] == ByName(inventory, name).value
                 && forall j | k < j < n :: inventory[..n][j].name != name;
        assert forall j | k < j < |inventory| :: inventory[j].name != name by {
          forall j | k < j < |inventory| ensures inventory[j].name != name {
            assert j < n ==> inventory[..n][j].name != name;
          }
        }
      }
    }
  }

  /** The names asked for that no entry has, in order. */
  function Missing(inventory: seq<MachineSpec>, names: seq<string>): (missing: seq<string>)
    ensures missing == [] <==> forall name | name in names :: Known(inventory, name)
  {
    if names == [] then []
    else
      var init, last := names[..|names| - 1], names[|names| - 1];
      assert names == init + [last];
      Missing(inventory, init) + if Known(inventory, last) then [] else [last]
  }

  lemma MissingSnoc(inventory: seq<MachineSpec>, names: seq<string>, i: nat)
    requires i < |names|
    ensures Missing(inventory, names[..i + 1]) ==
            Missing(inventory, names[..i]) + if Known(inventory, names[i]) then [] else [names[i]]
  {
    assert names[..i + 1][..i] == names[..i];
  }

  /** All hosts, or the named ones in the order asked for (repeats included), each
      the last entry of its name; unknown names end the program with their list. */
  method Select(inventory: seq<MachineSpec>, names: seq<string>) returns (r: Result<seq<MachineSpec>, Exit>)
    ensures names == [] ==> r == Success(inventory)
    ensures names != [] ==> (r.Success? <==> forall name | name in names :: Known(inventory, name))
    ensures r.Failure? ==> r.error == UnknownMachines(Missing(inventory, names))
    ensures names != [] && r.Success? ==>
              && |r.value| == |names|
              && forall i | 0 <= i < |names| :: LastNamed(inventory, names[i], r.value[i])
  {
    if names == [] {
      return Success(inventory);
    }
    var missing := [];
    for i := 0 to |names|
      invariant missing == Missing(inventory, names[..i])
    {
      MissingSnoc(inventory, names, i);
      ByNameFinds(inventory, names[i]);
      if ByName(inventory, names[i]).None? {
        missing := missing + [names[i]];
      }
    }
    assert names[..|names|] == names;
    if missing != [] {
      return Failure(UnknownMachines(missing));
    }
    var selected := Lookup(inventory, names);
    return Success(selected);
  }

  /** The dictionary lookups, one after another. */
  method Lookup(inventory: seq<MachineSpec>, names: seq<string>) returns (selected: seq<MachineSpec>)
    requires forall name | name in names :: Known(inventory, name)
    ensures |selected| == |names|
    ensures forall i | 0 <= i < |names| :: LastNamed(inventory, names[i], selected[i])
  {
    selected := [];
    for i := 0 to |names|
      invariant |selected| == i
      invariant forall j | 0 <= j < i :: LastNamed(inventory, names[j], selected[j])
    {
      ByNameFinds(inventory, names[i]);
      assert names[i] in names;
      selected := selected + [ByName(inventory, names[i]).value];
    }
  }

  // ---- Composing the plan ----------------------------------------------------------

  function Filtered(phases: seq<string>): seq<string> {
    if phases == [] then []
    else (if phases[0] in PER_MACHINE_PHASES then [phases[0]] else []) + Filtered(phases[1..])
  }

  function BuildPlan(m: MachineSpec, c: Config, phases: seq<string>, batchId: Uuid): MachinePlan {
    MachinePlan(m, phases, if "stress" in phases then Some(c.fioProfiles) else None, Some(batchId), c.maxAttempts)
  }

  function BuildMeshPlan(targets: seq<MachineSpec>, c: Config, batchId: Uuid): MeshPlan {
    MeshPlan(targets, c.verifyJumbo, Some(batchId), c.maxAttempts)
  }

  function BuildEncapPlan(targets: seq<MachineSpec>, c: Config, batchId: Uuid): Result<EncapPlan, Exit> {
    if |targets| < 2 then Failure(TooFewMachines)
    else Success(EncapPlan(targets[0], targets[1], VXLAN_VNI, Some(batchId), c.maxAttempts))
  }

  function BuildBatchPlan(batchId: Uuid, workflowId: string, c: Config, targets: seq<MachineSpec>,
                          phases: seq<string>): Result<BatchPlan, Exit>
  {
    var machinePhases := Filtered(phases);
    var machinePlans := seq(|targets|, i requires 0 <= i < |targets| => BuildPlan(targets[i], c, machinePhases, batchId));
    var mesh := if "mesh" in phases then Some(BuildMeshPlan(targets, c, batchId)) else None;
    var plan := BatchPlan(batchId, workflowId, c.snapshot, machinePlans, mesh, None,
                          c.maxAttempts, c.failOnSmartError, c.failOnMemoryError);
    if "encap" !in phases then Success(plan)
    else
      match BuildEncapPlan(targets, c, batchId)
      case Failure(e) => Failure(e)
      case Success(encap) => Success(plan.(encapPlan := Some(encap)))
  }

  lemma {:induction false} FilteredKeeps(phases: seq<string>, p: string)
    ensures p in Filtered(phases) <==> p in phases && p in PER_MACHINE_PHASES
  {
    if phases != [] {
      FilteredKeeps(phases[1..], p);
    }
  }

  /** The fio lookups and `test_disks[0]` are defined on one host. */
  predicate FioUsableOn(c: Config, m: MachineSpec) {
    && (forall name | name in c.fioProfiles :: name in FIO_NAME_TO_ACTIVITY)
    && (c.fioProfiles != [] ==> m.testDisks != [])
  }

  predicate FioUsable(c: Config, targets: seq<MachineSpec>) {
    forall m | m in targets :: FioUsableOn(c, m)
  }

  lemma BuiltJobs(batchId: Uuid, workflowId: string, c: Config, targets: seq<MachineSpec>,
                  phases: seq<string>, job: Job)
    requires BuildBatchPlan(batchId, workflowId, c, targets, phases).Success?
    ensures var plan := BuildBatchPlan(batchId, workflowId, c, targets, phases).value;
            job in JobsOf(plan) && job.MachineJob? <==>
            exists m :: m in targets && job == MachineJob(BuildPlan(m, c, Filtered(phases), batchId))
  {
    var plan := BuildBatchPlan(batchId, workflowId, c, targets, phases).value;
    forall i | 0 <= i < |targets|
      ensures JobsOf(plan)[i] == MachineJob(BuildPlan(targets[i], c, Filtered(phases), batchId))
    {}
    if m :| m in targets && job == MachineJob(BuildPlan(m, c, Filtered(phases), batchId)) {
      var i :| 0 <= i < |targets| && targets[i] == m;
      assert JobsOf(plan)[i] in JobsOf(plan);
    }
  }

  lemma BuiltPolicy(batchId: Uuid, workflowId: string, c: Config, targets: seq<MachineSpec>,
                    phases: seq<string>, job: Job)
    requires BuildBatchPlan(batchId, workflowId, c, targets, phases).Success?
    ensures var plan := BuildBatchPlan(batchId, workflowId, c, targets, phases).value;
            job in JobsOf(plan) ==> job.BatchId() == Some(batchId) && job.MaxAttempts() == c.maxAttempts
  {
  }

  /** The plans a batch gets are well formed (one batch id and one retry policy
      throughout, every child runnable) exactly when retries are bounded and, if
      stress is asked for on some host, the fio profiles are usable. */
  lemma BuiltPlanIsPlanned(batchId: Uuid, workflowId: string, c: Config, targets: seq<MachineSpec>, phases: seq<string>)
    requires BuildBatchPlan(batchId, workflowId, c, targets, phases).Success?
    ensures Planned(BuildBatchPlan(batchId, workflowId, c, targets, phases).value) <==>
            c.maxAttempts >= 1 && ("stress" in phases ==> FioUsable(c, targets))
  {
    var plan := BuildBatchPlan(batchId, workflowId, c, targets, phases).value;
    FilteredKeeps(phases, "stress");
    forall job { BuiltJobs(batchId, workflowId, c, targets, phases, job); }
    forall job { BuiltPolicy(batchId, workflowId, c, targets, phases, job); }
    if "stress" in phases {
      forall m | m in targets && Planned(plan) ensures FioUsableOn(c, m) {
        assert RunnableJob(MachineJob(BuildPlan(m, c, Filtered(phases), batchId)));
      }
    }
  }

  /** The plan runs the phases asked for on this machine, with these fio profiles. */
  ghost predicate MachinePlanFits(plan: MachinePlan, m: MachineSpec, c: Config, phases: seq<string>) {
    && plan.machine == m && plan.maxAttempts == c.maxAttempts
    && (forall p :: p in plan.phases <==> p in phases && p in {"setup", "hardware", "stress"})
    && plan.fioProfiles == if "stress" in phases then Some(c.fioProfiles) else None
  }

  lemma BuiltMachinePlan(m: MachineSpec, c: Config, phases: seq<string>, batchId: Uuid)
    ensures MachinePlanFits(BuildPlan(m, c, Filtered(phases), batchId), m, c, phases)
  {
    forall p { FilteredKeeps(phases, p); }
  }

  /** Machine phases stay in the order asked for. */
  lemma {:induction false} PhasesKeepOrder(a: seq<string>, b: seq<string>)
    ensures Filtered(a + b) == Filtered(a) + Filtered(b)
  {
    if a == [] {
      assert a + b == b;
    } else {
      assert (a + b)[1..] == a[1..] + b;
      PhasesKeepOrder(a[1..], b);
    }
  }

  /** What a built plan takes over from its inputs: ids, snapshot, attempts and both
      auto-fail switches. */
  predicate TakesOver(plan: BatchPlan, batchId: Uuid, workflowId: string, c: Config) {
    && plan.batchId == batchId && plan.workflowId == workflowId && plan.config == c.snapshot
    && plan.maxAttempts == c.maxAttempts
    && plan.failOnSmartError == c.failOnSmartError && plan.failOnMemoryError == c.failOnMemoryError
  }

  /** What a built plan covers: one machine plan per target in order, with exactly the
      per-machine phases asked for, and the configured fio profiles as they stand when
      stress is; the mesh over all targets with the jumbo switch; encapsulation between
      the first two under the fixed VNI, and failure exactly when there are fewer. */
  lemma BuiltPlanShape(batchId: Uuid, workflowId: string, c: Config, targets: seq<MachineSpec>, phases: seq<string>)
    ensures var r := BuildBatchPlan(batchId, workflowId, c, targets, phases);
            && (r.Failure? <==> "encap" in phases && |targets| < 2)
            && (r.Failure? ==> r.error == TooFewMachines)
            && (r.Success? ==>
                  var plan := r.value;
                  && TakesOver(plan, batchId, workflowId, c)
                  && |plan.machinePlans| == |targets|
                  && (forall i | 0 <= i < |targets| :: MachinePlanFits(plan.machinePlans[i], targets[i], c, phases))
                  && plan.meshPlan == (if "mesh" in phases
                                       then Some(MeshPlan(targets, c.verifyJumbo, Some(batchId), c.maxAttempts))
                                       else None)
                  && plan.encapPlan == (if "encap" in phases
                                        then Some(EncapPlan(targets[0], targets[1], 4242, Some(batchId), c.maxAttempts))
                                        else None))
  {
    forall m { BuiltMachinePlan(m, c, phases, batchId); }
  }

  /** Asking for a host twice does not run it twice: the second child of the name
      cannot start, and exactly the repeats are such children. */
  lemma RepeatsCannotStart(inventory: seq<MachineSpec>, names: seq<string>, targets: seq<MachineSpec>,
                           batchId: Uuid, workflowId: string, c: Config, phases: seq<string>, i: nat)
    requires |targets| == |names| && forall j | 0 <= j < |names| :: LastNamed(inventory, names[j], targets[j])
    requires BuildBatchPlan(batchId, workflowId, c, targets, phases).Success? && i < |names|
    ensures Duplicate(BuildBatchPlan(batchId, workflowId, c, targets, phases).value, i) <==>
            exists j | 0 <= j < i :: names[j] == names[i]
  {
    var plan := BuildBatchPlan(batchId, workflowId, c, targets, phases).value;
    forall j | 0 <= j < |names| ensures plan.machinePlans[j].machine.name == names[j] {
      assert plan.machinePlans[j].machine == targets[j];
    }
  }
}
