/** The three child workflows as programs over activities: which activities each
    stage schedules, given the results so far, and what the stages add up to. */
module Jobs {

  import opened Wrappers
  import opened Model
  import opened Pairs

  datatype Activity =
    | SshCheck | AptInstall
    | Probe(name: string)
    | StressCpu | StressMemory | SysbenchCpu | Fio(index: nat, name: string)
    | VerifyMtu(host: nat) | VerifyJumbo(source: nat, target: nat) | Iperf3Pair(server: nat, client: nat)
    | SetupVxlan | Iperf3OverTunnel | TeardownVxlan

  /** An activity's final outcome once its retries are over. */
  datatype Outcome = Returned(result: PhaseResult) | Raised

  /** The outcome of every activity of one workflow run. */
  type Oracle = Activity -> Outcome

  datatype MachinePlan = MachinePlan(
    machine: MachineSpec, phases: seq<string>, fioProfiles: Option<seq<string>>,
    batchId: Option<Uuid>, maxAttempts: nat)

  datatype MeshPlan = MeshPlan(
    machines: seq<MachineSpec>, verifyJumbo: bool, batchId: Option<Uuid>, maxAttempts: nat)

  datatype EncapPlan = EncapPlan(
    hostA: MachineSpec, hostB: MachineSpec, vni: nat, batchId: Option<Uuid>, maxAttempts: nat)

  datatype Job = MachineJob(machine: MachinePlan) | MeshJob(mesh: MeshPlan) | EncapJob(encap: EncapPlan)
  {
    function BatchId(): Option<Uuid> {
      match this
      case MachineJob(p) => p.batchId
      case MeshJob(p) => p.batchId
      case EncapJob(p) => p.batchId
    }

    function MaxAttempts(): nat {
      match this
      case MachineJob(p) => p.maxAttempts
      case MeshJob(p) => p.maxAttempts
      case EncapJob(p) => p.maxAttempts
    }
  }

  const HARDWARE_PROBES: seq<string> := [
    "probe_cpu", "probe_memory_ecc", "probe_disks_smart", "probe_nics",
    "probe_numa", "probe_lldp", "probe_bios_firmware"]

  const FIO_NAME_TO_ACTIVITY: map<string, string> := map[
    "seq_read" := "fio_seq_read", "seq_write" := "fio_seq_write",
    "rand_read" := "fio_rand_read", "rand_write" := "fio_rand_write"]

  /** The plan's table lookups and `test_disks[0]` are defined. */
  predicate Runnable(p: MachinePlan) {
    "stress" in p.phases && p.fioProfiles.Some? ==>
      && (forall name | name in p.fioProfiles.value :: name in FIO_NAME_TO_ACTIVITY)
      && (p.fioProfiles.value != [] ==> p.machine.testDisks != [])
  }

  predicate RunnableJob(job: Job) {
    job.MachineJob? ==> Runnable(job.machine)
  }

  // ---- Groups --------------------------------------------------------------

  function ProbeGroup(): seq<Activity> {
    seq(|HARDWARE_PROBES|, i requires 0 <= i < |HARDWARE_PROBES| => Probe(HARDWARE_PROBES[i]))
  }

  function FioGroup(profiles: seq<string>): seq<Activity>
    requires forall name | name in profiles :: name in FIO_NAME_TO_ACTIVITY
  {
    seq(|profiles|, i requires 0 <= i < |profiles| => Fio(i, FIO_NAME_TO_ACTIVITY[profiles[i]]))
  }

  function StressGroup(p: MachinePlan): seq<Activity>
    requires Runnable(p)
  {
    if "stress" in p.phases && p.fioProfiles.Some?
    then [StressCpu, StressMemory, SysbenchCpu] + FioGroup(p.fioProfiles.value)
    else []
  }

  function Indices(n: nat): (s: seq<nat>)
    ensures |s| == n && forall i | 0 <= i < n :: s[i] == i
  {
    seq(n, i => i)
  }

  function MtuGroup(n: nat): seq<Activity> {
    seq(n, i requires 0 <= i < n => VerifyMtu(i))
  }

  function JumboGroup(n: nat): seq<Activity> {
    var ps := PairsOf(Indices(n));
    seq(|ps|, k requires 0 <= k < |ps| => VerifyJumbo(ps[k].0, ps[k].1))
  }

  function IperfGroup(n: nat): seq<Activity> {
    var ps := PairsOf(Indices(n));
    seq(|ps|, k requires 0 <= k < |ps| => Iperf3Pair(ps[k].0, ps[k].1))
  }

  function Stages(job: Job): nat {
    match job
    case MachineJob(_) => 4
    case MeshJob(p) => 2 + |IperfGroup(|p.machines|)|
    case EncapJob(_) => 3
  }

  predicate FirstPassed(done: seq<PhaseResult>) {
    done != [] && done[0].status == Passed
  }

  /** The activities awaited together at `stage`, given the results so far. */
  function Group(job: Job, stage: nat, done: seq<PhaseResult>): seq<Activity>
    requires RunnableJob(job)
  {
    match job
    case MachineJob(p) =>
      if stage == 0 then (if "setup" in p.phases then [SshCheck] else [])
      else if stage == 1 then (if "setup" in p.phases && FirstPassed(done) then [AptInstall] else [])
      else if stage == 2 then (if "hardware" in p.phases then ProbeGroup() else [])
      else if stage == 3 then StressGroup(p)
      else []
    case MeshJob(p) =>
      var n := |p.machines|;
      if stage == 0 then MtuGroup(n)
      else if stage == 1 then (if p.verifyJumbo then JumboGroup(n) else [])
      else if stage - 2 < |IperfGroup(n)| then [IperfGroup(n)[stage - 2]]
      else []
    case EncapJob(p) =>
      if stage == 0 then [SetupVxlan]
      else if stage == 1 then (if FirstPassed(done) then [Iperf3OverTunnel] else [])
      else if stage == 2 then [TeardownVxlan]
      else []
  }

  /** Stages inside the `try` whose `finally` is the next stage. */
  predicate Guarded(job: Job, stage: nat) {
    job.EncapJob? && stage == 1
  }

  // ---- What a run computes ---------------------------------------------------

  predicate Raises(group: seq<Activity>, o: Oracle) {
    exists a | a in group :: o(a).Raised?
  }

  function Collect(group: seq<Activity>, o: Oracle): seq<PhaseResult>
    requires !Raises(group, o)
  {
    seq(|group|, i requires 0 <= i < |group| => assert group[i] in group; o(group[i]).result)
  }

  /** The control state after some stages: going on with the results so far,
      with an exception pending in a `finally`, or gone with it. */
  datatype Flow = Going(done: seq<PhaseResult>, failing: bool) | Gone

  function RunTo(job: Job, k: nat, o: Oracle): Flow
    requires RunnableJob(job)
  {
    if k == 0 then Going([], false)
    else
      match RunTo(job, k - 1, o)
      case Gone => Gone
      case Going(done, failing) =>
        var group := Group(job, k - 1, done);
        if !Raises(group, o) then Going(done + Collect(group, o), failing)
        else if Guarded(job, k - 1) then Going(done, true)
        else Gone
  }

  /** The phase list the workflow builds, or None when it raises. */
  function Results(job: Job, o: Oracle): Option<seq<PhaseResult>>
    requires RunnableJob(job)
  {
    match RunTo(job, Stages(job), o)
    case Going(done, false) => Some(done)
    case _ => None
  }

  lemma {:induction false} GoneStays(job: Job, k: nat, n: nat, o: Oracle)
    requires RunnableJob(job) && k <= n && RunTo(job, k, o).Gone?
    ensures RunTo(job, n, o).Gone?
    decreases n - k
  {
    if k < n {
      GoneStays(job, k, n - 1, o);
    }
  }

  /** One unguarded stage: an exception ends the run, else its results are added. */
  lemma StageResult(job: Job, k: nat, o: Oracle, done: seq<PhaseResult>)
    requires RunnableJob(job) && k < Stages(job) && !Guarded(job, k) && RunTo(job, k, o) == Going(done, false)
    ensures var group := Group(job, k, done);
            if Raises(group, o) then Results(job, o).None?
            else RunTo(job, k + 1, o) == Going(done + Collect(group, o), false)
  {
    if Raises(Group(job, k, done), o) {
      GoneStays(job, k + 1, Stages(job), o);
    }
  }

  // ---- The workflows as written -----------------------------------------------

  /** `await asyncio.gather(...)`: results in the order of the arguments, or the
      exception. */
  method Gather(group: seq<Activity>, o: Oracle) returns (results: Option<seq<PhaseResult>>)
    ensures results == if Raises(group, o) then None else Some(Collect(group, o))
  {
    var collected := [];
    for i := 0 to |group|
      invariant !Raises(group[..i], o) && collected == Collect(group[..i], o)
    {
      match o(group[i])
      case Raised =>
        assert group[i] in group;
        return None;
      case Returned(r) =>
        assert group[..i + 1] == group[..i] + [group[i]];
        collected := collected + [r];
    }
    assert group[..|group|] == group;
    return Some(collected);
  }

  /** The stress group: three fixed activities and one per fio profile. */
  method RunStress(p: MachinePlan, o: Oracle) returns (results: Option<seq<PhaseResult>>)
    requires Runnable(p) && "stress" in p.phases && p.fioProfiles.Some?
    ensures results == if Raises(StressGroup(p), o) then None else Some(Collect(StressGroup(p), o))
  {
    var coros := [StressCpu, StressMemory, SysbenchCpu];
    var profiles := p.fioProfiles.value;
    for i := 0 to |profiles|
      invariant coros == [StressCpu, StressMemory, SysbenchCpu] + FioGroup(profiles[..i])
    {
      var target := p.machine.testDisks[0];
      coros := coros + [Fio(i, FIO_NAME_TO_ACTIVITY[profiles[i]])];
    }
    assert profiles[..|profiles|] == profiles;
    results := Gather(coros, o);
  }

  method MachineRun(p: MachinePlan, o: Oracle) returns (results: Option<seq<PhaseResult>>)
    requires Runnable(p)
    ensures results == Results(MachineJob(p), o)
  {
    ghost var job := MachineJob(p);
    var done: seq<PhaseResult> := [];
    assert RunTo(job, 0, o) == Going(done, false);
    StageResult(job, 0, o, done);
    if "setup" in p.phases {
      var ssh := Gather([SshCheck], o);
      if ssh.None? { return None; }
      done := done + ssh.value;
      StageResult(job, 1, o, done);
      if done[0].status == Passed {
        var apt := Gather([AptInstall], o);
        if apt.None? { return None; }
        done := done + apt.value;
      }
    }
    assert RunTo(job, 2, o) == Going(done, false);
    StageResult(job, 2, o, done);
    if "hardware" in p.phases {
      var probes := Gather(ProbeGroup(), o);
      if probes.None? { return None; }
      done := done + probes.value;
    }
    assert RunTo(job, 3, o) == Going(done, false);
    StageResult(job, 3, o, done);
    if "stress" in p.phases && p.fioProfiles.Some? {
      var stress := RunStress(p, o);
      if stress.None? { return None; }
      done := done + stress.value;
    }
    assert RunTo(job, 4, o) == Going(done, false);
    return Some(done);
  }

  method JumboTasks(n: nat, pairs: seq<(nat, nat)>) returns (tasks: seq<Activity>)
    requires pairs == PairsOf(Indices(n))
    ensures tasks == JumboGroup(n)
  {
    tasks := [];
    for k := 0 to |pairs|
      invariant tasks == JumboGroup(n)[..k]
    {
      tasks := tasks + [VerifyJumbo(pairs[k].0, pairs[k].1)];
    }
  }

  lemma PairStage(p: MeshPlan, k: nat, o: Oracle, done: seq<PhaseResult>)
    requires k < |IperfGroup(|p.machines|)| && RunTo(MeshJob(p), 2 + k, o) == Going(done, false)
    ensures var group := [IperfGroup(|p.machines|)[k]];
            if Raises(group, o) then Results(MeshJob(p), o).None?
            else RunTo(MeshJob(p), 2 + k + 1, o) == Going(done + Collect(group, o), false)
  {
    StageResult(MeshJob(p), 2 + k, o, done);
  }

  lemma PairsOver(p: MeshPlan, o: Oracle, done: seq<PhaseResult>)
    requires RunTo(MeshJob(p), 2 + |IperfGroup(|p.machines|)|, o) == Going(done, false)
    ensures Results(MeshJob(p), o) == Some(done)
  {
  }

  /** The throughput pairs, strictly one at a time. */
  method RunPairs(p: MeshPlan, pairs: seq<(nat, nat)>, checks: seq<PhaseResult>, o: Oracle)
    returns (results: Option<seq<PhaseResult>>)
    requires pairs == PairsOf(Indices(|p.machines|)) && RunTo(MeshJob(p), 2, o) == Going(checks, false)
    ensures results == Results(MeshJob(p), o)
  {
    ghost var iperfs := IperfGroup(|p.machines|);
    var done := checks;
    for k := 0 to |pairs|
      invariant |iperfs| == |pairs| && RunTo(MeshJob(p), 2 + k, o) == Going(done, false)
    {
      PairStage(p, k, o, done);
      var group := [Iperf3Pair(pairs[k].0, pairs[k].1)];
      assert group == [iperfs[k]];
      var pair := Gather(group, o);
      if pair.None? { return None; }
      done := done + pair.value;
    }
    PairsOver(p, o, done);
    return Some(done);
  }

  method MeshRun(p: MeshPlan, o: Oracle) returns (results: Option<seq<PhaseResult>>)
    ensures results == Results(MeshJob(p), o)
  {
    ghost var job := MeshJob(p);
    var n := |p.machines|;
    assert RunTo(job, 0, o) == Going([], false);
    StageResult(job, 0, o, []);
    var phases := Gather(MtuGroup(n), o);
    if phases.None? { return None; }
    var done := [] + phases.value;
    StageResult(job, 1, o, done);
    var pairs := Pairs.Pairs(Indices(n));
    if p.verifyJumbo {
      var tasks := JumboTasks(n, pairs);
      phases := Gather(tasks, o);
      if phases.None? { return None; }
      done := done + phases.value;
    }
    assert RunTo(job, 2, o) == Going(done, false);
    results := RunPairs(p, pairs, done, o);
  }

  /** `finally` runs the teardown whether or not the measurement raised, and the
      pending exception wins unless the teardown raises its own. */
  method EncapRun(p: EncapPlan, o: Oracle) returns (results: Option<seq<PhaseResult>>)
    ensures results == Results(EncapJob(p), o)
    ensures results == if Raises(EncapActivities(o), o) then None else Some(Collect(EncapActivities(o), o))
  {
    EncapLayout(p, o);
    ghost var job := EncapJob(p);
    var setup := Gather([SetupVxlan], o);
    assert RunTo(job, 0, o) == Going([], false);
    if setup.None? { GoneStays(job, 1, 3, o); return None; }
    var phases, failing := setup.value, false;
    assert RunTo(job, 1, o) == Going(phases, false);
    if phases[0].status == Passed {
      var iperf := Gather([Iperf3OverTunnel], o);
      if iperf.Some? {
        phases := phases + iperf.value;
      } else {
        failing := true;
      }
    }
    assert RunTo(job, 2, o) == Going(phases, failing);
    var teardown := Gather([TeardownVxlan], o);
    if teardown.None? { return None; }
    phases := phases + teardown.value;
    assert RunTo(job, 3, o) == Going(phases, failing);
    return if failing then None else Some(phases);
  }

  // ---- Layouts -------------------------------------------------------------------

  function Concat<T>(xss: seq<seq<T>>): seq<T> {
    if xss == [] then [] else Concat(xss[..|xss| - 1]) + xss[|xss| - 1]
  }

  lemma ConcatFour<T>(a: seq<T>, b: seq<T>, c: seq<T>, d: seq<T>)
    ensures Concat([a, b, c, d]) == a + b + c + d
  {
    assert [a, b, c, d][..3] == [a, b, c] && [a, b, c][..2] == [a, b] && [a, b][..1] == [a] && [a][..0] == [];
    assert Concat([a]) == a;
    assert Concat([a, b]) == a + b;
    assert Concat([a, b, c]) == a + b + c;
  }

  /** The groups the run awaits, whenever it gets that far. */
  predicate Schedules(job: Job, o: Oracle, groups: seq<seq<Activity>>)
    requires RunnableJob(job)
  {
    forall k | 0 <= k < |groups| ::
      !Guarded(job, k) && (RunTo(job, k, o).Going? ==> Group(job, k, RunTo(job, k, o).done) == groups[k])
  }

  /** Stage by stage: the run raises exactly when an activity so far did, and
      otherwise holds all their results in order. */
  lemma {:induction false} RunToCollects(job: Job, o: Oracle, groups: seq<seq<Activity>>, k: nat)
    requires RunnableJob(job) && Schedules(job, o, groups) && k <= |groups|
    ensures var all := Concat(groups[..k]);
            RunTo(job, k, o) == if Raises(all, o) then Gone else Going(Collect(all, o), false)
  {
    if k > 0 {
      RunToCollects(job, o, groups, k - 1);
      assert groups[..k][..k - 1] == groups[..k - 1];
      CollectAppend(Concat(groups[..k - 1]), groups[k - 1], o);
    }
  }

  function SetupGroup(p: MachinePlan, o: Oracle): seq<Activity> {
    if "setup" in p.phases && o(SshCheck).Returned? && o(SshCheck).result.status == Passed then [AptInstall] else []
  }

  function MachineGroups(p: MachinePlan, o: Oracle): seq<seq<Activity>>
    requires Runnable(p)
  {
    [if "setup" in p.phases then [SshCheck] else [],
     SetupGroup(p, o),
     if "hardware" in p.phases then ProbeGroup() else [],
     StressGroup(p)]
  }

  lemma MachineSchedules(p: MachinePlan, o: Oracle)
    requires Runnable(p)
    ensures Schedules(MachineJob(p), o, MachineGroups(p, o))
  {
    var job := MachineJob(p);
    assert RunTo(job, 0, o) == Going([], false);
    assert RunTo(job, 1, o).Going? ==> Group(job, 1, RunTo(job, 1, o).done) == SetupGroup(p, o);
  }

  /** A machine run raises exactly when one of its activities does; otherwise its
      phases are theirs, in order: the SSH check, the package installation only if
      that passed, the seven probes as declared, then the stress group. */
  lemma MachineLayout(p: MachinePlan, o: Oracle)
    requires Runnable(p)
    ensures var all := Concat(MachineGroups(p, o));
            Results(MachineJob(p), o) == if Raises(all, o) then None else Some(Collect(all, o))
  {
    var groups := MachineGroups(p, o);
    MachineSchedules(p, o);
    RunToCollects(MachineJob(p), o, groups, 4);
    assert groups[..4] == groups;
  }

  lemma CollectAppend(a: seq<Activity>, b: seq<Activity>, o: Oracle)
    ensures Raises(a + b, o) <==> Raises(a, o) || Raises(b, o)
    ensures !Raises(a + b, o) ==> Collect(a + b, o) == Collect(a, o) + Collect(b, o)
  {
    assert forall x :: x in a + b <==> x in a || x in b;
  }

  function SetupActivities(p: MachinePlan, o: Oracle): seq<Activity> {
    (if "setup" in p.phases then [SshCheck] else []) + SetupGroup(p, o)
  }

  /** The activities of a machine run by name and position: after the setup, the seven
      probes if hardware is asked for, then the three fixed stress activities and one
      fio activity per profile, in the profiles' order. */
  lemma MachinePositions(p: MachinePlan, o: Oracle)
    requires Runnable(p)
    ensures var all, setup := Concat(MachineGroups(p, o)), |SetupActivities(p, o)|;
            var probes := if "hardware" in p.phases then 7 else 0;
            var stress := if "stress" in p.phases && p.fioProfiles.Some? then 3 + |p.fioProfiles.value| else 0;
            && |all| == setup + probes + stress
            && all[..setup] == SetupActivities(p, o)
            && ("hardware" in p.phases ==>
                  all[setup..setup + 7] ==
                  [Probe("probe_cpu"), Probe("probe_memory_ecc"), Probe("probe_disks_smart"), Probe("probe_nics"),
                   Probe("probe_numa"), Probe("probe_lldp"), Probe("probe_bios_firmware")])
            && (stress > 0 ==>
                  && all[setup + probes..setup + probes + 3] == [StressCpu, StressMemory, SysbenchCpu]
                  && forall i | 0 <= i < |p.fioProfiles.value| ::
                       all[setup + probes + 3 + i] == Fio(i, "fio_" + p.fioProfiles.value[i]))
  {
    var gs := MachineGroups(p, o);
    ConcatFour(gs[0], gs[1], gs[2], gs[3]);
    assert gs == [gs[0], gs[1], gs[2], gs[3]];
    var probes := [Probe("probe_cpu"), Probe("probe_memory_ecc"), Probe("probe_disks_smart"), Probe("probe_nics"),
                   Probe("probe_numa"), Probe("probe_lldp"), Probe("probe_bios_firmware")];
    assert ProbeGroup() == probes;
    Positions(SetupActivities(p, o), gs[2], gs[3]);
    if "stress" in p.phases && p.fioProfiles.Some? {
      forall i | 0 <= i < |p.fioProfiles.value|
        ensures StressGroup(p)[3 + i] == Fio(i, "fio_" + p.fioProfiles.value[i])
      {
        assert p.fioProfiles.value[i] in p.fioProfiles.value;
        FioNames(p.fioProfiles.value[i]);
      }
    }
  }

  /** Each profile runs the activity of its name; there are four. */
  lemma FioNames(name: string)
    ensures name in FIO_NAME_TO_ACTIVITY <==> name in {"seq_read", "seq_write", "rand_read", "rand_write"}
    ensures name in FIO_NAME_TO_ACTIVITY ==> FIO_NAME_TO_ACTIVITY[name] == "fio_" + name
  {
  }

  lemma Positions<T>(a: seq<T>, b: seq<T>, c: seq<T>)
    ensures (a + b + c)[..|a|] == a && (a + b + c)[|a|..|a| + |b|] == b && (a + b + c)[|a| + |b|..] == c
  {
  }

  /** All activities of an encapsulation run, in the order of their results. */
  function EncapActivities(o: Oracle): seq<Activity> {
    [SetupVxlan] +
    (if o(SetupVxlan).Returned? && o(SetupVxlan).result.status == Passed then [Iperf3OverTunnel] else []) +
    [TeardownVxlan]
  }

  /** An encapsulation run raises exactly when its setup, a measurement after a
      passed setup, or its teardown does; otherwise its phases are the setup's, the
      measurement's if the setup passed, and the teardown's. */
  lemma EncapLayout(p: EncapPlan, o: Oracle)
    ensures var all := EncapActivities(o);
            Results(EncapJob(p), o) == if Raises(all, o) then None else Some(Collect(all, o))
  {
    var job, all := EncapJob(p), EncapActivities(o);
    assert RunTo(job, 0, o) == Going([], false);
    if o(SetupVxlan).Raised? {
      assert Raises([SetupVxlan], o) && SetupVxlan in all;
      GoneStays(job, 1, 3, o);
    } else {
      var setup := o(SetupVxlan).result;
      assert RunTo(job, 1, o) == Going([setup], false);
      var group := Group(job, 1, [setup]);
      CollectAppend([SetupVxlan], group, o);
      CollectAppend([SetupVxlan] + group, [TeardownVxlan], o);
      assert all == [SetupVxlan] + group + [TeardownVxlan] && Collect([SetupVxlan], o) == [setup];
      assert RunTo(job, 2, o) ==
             if Raises(group, o) then Going([setup], true) else Going([setup] + Collect(group, o), false);
      assert Group(job, 2, RunTo(job, 2, o).done) == [TeardownVxlan];
    }
  }

  /** All activities of a mesh run, in the order of their results. */
  function MeshActivities(p: MeshPlan): seq<Activity> {
    var n := |p.machines|;
    MtuGroup(n) + (if p.verifyJumbo then JumboGroup(n) else []) + IperfGroup(n)
  }

  function Singles<T>(xs: seq<T>): seq<seq<T>> {
    seq(|xs|, i requires 0 <= i < |xs| => [xs[i]])
  }

  lemma {:induction false} ConcatSingles<T>(head: seq<seq<T>>, xs: seq<T>)
    ensures Concat(head + Singles(xs)) == Concat(head) + xs
  {
    if xs == [] {
      assert head + Singles(xs) == head;
    } else {
      var n := |xs| - 1;
      ConcatSingles(head, xs[..n]);
      assert (head + Singles(xs))[..|head| + n] == head + Singles(xs[..n]);
    }
  }

  /** The mesh's groups: the MTU checks, the jumbo checks, then one pair a stage. */
  function MeshGroups(p: MeshPlan): seq<seq<Activity>> {
    var n := |p.machines|;
    [MtuGroup(n), if p.verifyJumbo then JumboGroup(n) else []] + Singles(IperfGroup(n))
  }

  lemma MeshGroupAt(p: MeshPlan, k: nat, done: seq<PhaseResult>)
    requires k < |MeshGroups(p)|
    ensures Group(MeshJob(p), k, done) == MeshGroups(p)[k]
  {
  }

  lemma MeshSchedules(p: MeshPlan, o: Oracle)
    ensures Schedules(MeshJob(p), o, MeshGroups(p)) && |MeshGroups(p)| == Stages(MeshJob(p))
  {
    forall k | 0 <= k < |MeshGroups(p)| && RunTo(MeshJob(p), k, o).Going?
      ensures Group(MeshJob(p), k, RunTo(MeshJob(p), k, o).done) == MeshGroups(p)[k]
    {
      MeshGroupAt(p, k, RunTo(MeshJob(p), k, o).done);
    }
  }

  lemma MeshConcat(p: MeshPlan)
    ensures Concat(MeshGroups(p)) == MeshActivities(p)
  {
    var n := |p.machines|;
    var head := [MtuGroup(n), if p.verifyJumbo then JumboGroup(n) else []];
    ConcatSingles(head, IperfGroup(n));
    assert head[..1] == [head[0]] && Concat([head[0]]) == head[0];
  }

  /** A mesh run raises exactly when one of its activities does; otherwise its
      phases are theirs, in layout order. */
  lemma MeshLayout(p: MeshPlan, o: Oracle)
    ensures var all := MeshActivities(p);
            Results(MeshJob(p), o) == if Raises(all, o) then None else Some(Collect(all, o))
  {
    var groups := MeshGroups(p);
    MeshSchedules(p, o);
    RunToCollects(MeshJob(p), o, groups, |groups|);
    MeshConcat(p);
    assert groups[..|groups|] == groups;
  }

  /** The position of the first throughput phase. */
  function FirstPair(p: MeshPlan): nat {
    |p.machines| + if p.verifyJumbo then Total(|p.machines|) else 0
  }

  lemma PairAt(n: nat, i: nat, j: nat)
    requires i < j < n
    ensures var r := Rank(n, i, j);
            && 0 <= r < Total(n) == |JumboGroup(n)| == |IperfGroup(n)|
            && JumboGroup(n)[r] == VerifyJumbo(i, j) && IperfGroup(n)[r] == Iperf3Pair(i, j)
  {
    PairsOfListed(Indices(n));
    assert PairsOf(Indices(n))[Rank(n, i, j)] == (i, j);
  }

  lemma MeshLength(p: MeshPlan)
    ensures |MeshActivities(p)| == FirstPair(p) + Total(|p.machines|)
    ensures forall i | 0 <= i < |p.machines| :: MeshActivities(p)[i] == VerifyMtu(i)
  {
    PairsOfListed(Indices(|p.machines|));
  }

  lemma IndexIn<T>(a: seq<T>, b: seq<T>, c: seq<T>, i: nat)
    ensures i < |b| ==> (a + b + c)[|a| + i] == b[i]
    ensures i < |c| ==> (a + b + c)[|a| + |b| + i] == c[i]
  {
  }

  lemma MeshPairAt(p: MeshPlan, i: nat, j: nat)
    requires i < j < |p.machines|
    ensures |MeshActivities(p)| == FirstPair(p) + Total(|p.machines|)
    ensures var r := Rank(|p.machines|, i, j);
            && 0 <= r < Total(|p.machines|)
            && (p.verifyJumbo ==> MeshActivities(p)[|p.machines| + r] == VerifyJumbo(i, j))
            && MeshActivities(p)[FirstPair(p) + r] == Iperf3Pair(i, j)
  {
    var n := |p.machines|;
    MeshLength(p);
    PairAt(n, i, j);
    IndexIn(MtuGroup(n), if p.verifyJumbo then JumboGroup(n) else [], IperfGroup(n), Rank(n, i, j));
  }

  /** Where each mesh activity sits: n MTU checks, the jumbo checks if asked for,
      and the throughput pairs, both pair groups ordered by rank. */
  lemma MeshPositions(p: MeshPlan)
    ensures |MeshActivities(p)| == FirstPair(p) + Total(|p.machines|)
    ensures forall i | 0 <= i < |p.machines| :: MeshActivities(p)[i] == VerifyMtu(i)
    ensures forall i, j {:trigger Rank(|p.machines|, i, j)} | 0 <= i < j < |p.machines| ::
              var r := Rank(|p.machines|, i, j);
              && 0 <= r < Total(|p.machines|)
              && (p.verifyJumbo ==> MeshActivities(p)[|p.machines| + r] == VerifyJumbo(i, j))
              && MeshActivities(p)[FirstPair(p) + r] == Iperf3Pair(i, j)
  {
    MeshLength(p);
    forall i, j | 0 <= i < j < |p.machines|
      ensures var r := Rank(|p.machines|, i, j);
              && 0 <= r < Total(|p.machines|)
              && (p.verifyJumbo ==> MeshActivities(p)[|p.machines| + r] == VerifyJumbo(i, j))
              && MeshActivities(p)[FirstPair(p) + r] == Iperf3Pair(i, j)
    {
      MeshPairAt(p, i, j);
    }
  }
}
