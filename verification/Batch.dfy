/** The batch workflow's own logic: how the gathered children are sorted out and
    how they decide the verdict. */
module Batch {

  import opened Wrappers
  import opened Model
  import opened Jobs

  datatype BatchPlan = BatchPlan(
    batchId: Uuid, workflowId: string, config: string,
    machinePlans: seq<MachinePlan>, meshPlan: Option<MeshPlan>, encapPlan: Option<EncapPlan>,
    maxAttempts: nat, failOnSmartError: bool, failOnMemoryError: bool)

  /** What a mesh or encapsulation child returns. */
  datatype GroupResult = GroupResult(status: Status, phases: seq<PhaseResult>)

  datatype ChildResult = MachineChild(machine: MachineResult) | GroupChild(group: GroupResult)

  datatype BatchResult = BatchResult(
    status: Status, machineResults: seq<MachineResult>, mesh: Option<GroupResult>, encap: Option<GroupResult>)

  // ---- Auto-fail ---------------------------------------------------------------

  /** The disk list names a disk whose SMART health is false. */
  predicate SmartBad(d: Details) {
    d.Disks? && exists e | e in d.disks :: e.Report? && !e.passed
  }

  predicate TripsRule(plan: BatchPlan, p: PhaseResult) {
    || (plan.failOnSmartError && p.phase == "hw_disks_smart" && SmartBad(p.details))
    || (plan.failOnMemoryError && p.phase == "hw_memory_ecc" && p.status != Passed)
  }

  predicate MustFail(plan: BatchPlan, ms: seq<MachineResult>) {
    || (exists m | m in ms :: m.status != Passed)
    || (exists m | m in ms :: exists p | p in m.phases :: TripsRule(plan, p))
  }

  method ShouldFail(plan: BatchPlan, ms: seq<MachineResult>) returns (fail: bool)
    ensures fail <==> MustFail(plan, ms)
  {
    if exists m | m in ms :: m.status != Passed {
      return true;
    }
    for i := 0 to |ms|
      invariant forall m | m in ms[..i] :: forall p | p in m.phases :: !TripsRule(plan, p)
    {
      var phases := ms[i].phases;
      for j := 0 to |phases|
        invariant forall p | p in phases[..j] :: !TripsRule(plan, p)
      {
        var phase := phases[j];
        if plan.failOnSmartError && phase.phase == "hw_disks_smart" {
          var disks := if phase.details.Disks? then phase.details.disks else [];
          for k := 0 to |disks|
            invariant forall e | e in disks[..k] :: !(e.Report? && !e.passed)
          {
            if disks[k].Report? && !disks[k].passed {
              assert TripsRule(plan, phase) && phase in phases && ms[i] in ms;
              return true;
            }
          }
          assert disks[..|disks|] == disks;
        }
        if plan.failOnMemoryError && phase.phase == "hw_memory_ecc" && phase.status != Passed {
          assert TripsRule(plan, phase) && phase in phases && ms[i] in ms;
          return true;
        }
      }
      assert phases[..|phases|] == phases;
    }
    assert ms[..|ms|] == ms;
    return false;
  }

  /** What a disk's command printed: nothing but blanks, a report with its health
      (absent counts as bad), or text that is no report. */
  datatype Printed = Blank | Smart(health: bool) | Garbled

  /** What reading one disk gave: whether the command succeeded and what it printed;
      or nothing, because the SSH session was lost. */
  datatype Reading = Reading(device: string, ok: bool, printed: Printed) | NoSession

  /** A failed command without output is recorded; any other output is parsed, and
      parsing raises on blanks and on anything that is no report. A lost session
      raises as well. */
  predicate ReadRaises(r: Reading) {
    r.NoSession? || r.printed.Garbled? || (r.ok && r.printed.Blank?)
  }

  function EntryFor(r: Reading): DiskEntry
    requires !ReadRaises(r)
  {
    if r.printed.Smart? then Report(r.device, r.printed.health) else Unreadable(r.device)
  }

  predicate BadReport(r: Reading) {
    r.Reading? && r.printed == Smart(false)
  }

  /** What the readings amount to: nothing if the session does not open or one of them
      raises; else failure exactly if some report says bad health, with the readings
      in order. */
  function SmartOutcome(opens: bool, readings: seq<Reading>): Option<(Status, Details)> {
    if !opens || exists r | r in readings :: ReadRaises(r) then None
    else
      Some((if exists r | r in readings :: BadReport(r) then Failed else Passed,
            Disks(seq(|readings|, i requires 0 <= i < |readings| =>
              assert readings[i] in readings; EntryFor(readings[i])))))
  }

  /** The SMART probe reads disk after disk, scans its own list for bad health, and
      so arrives at what the readings amount to. */
  method ProbeDisksSmart(opens: bool, readings: seq<Reading>) returns (outcome: Option<(Status, Details)>)
    ensures outcome == SmartOutcome(opens, readings)
    ensures outcome.None? <==> !opens || exists r | r in readings :: ReadRaises(r)
    ensures outcome.Some? ==> (outcome.value.0 == Failed <==> exists r | r in readings :: BadReport(r))
    ensures outcome.Some? ==> outcome.value.0 == (if SmartBad(outcome.value.1) then Failed else Passed)
    ensures outcome.Some? ==>
              && outcome.value.1.Disks? && |outcome.value.1.disks| == |readings|
              && forall i | 0 <= i < |readings| ::
                   var entry, r := outcome.value.1.disks[i], readings[i];
                   && r.Reading? && entry.device == r.device
                   && (entry.Unreadable? <==> !r.ok && r.printed.Blank?)
                   && (entry.Report? ==> r.printed == Smart(entry.passed))
  {
    if !opens {
      return None;
    }
    var disks := [];
    for i := 0 to |readings|
      invariant |disks| == i
      invariant forall j | 0 <= j < i :: !ReadRaises(readings[j]) && disks[j] == EntryFor(readings[j])
    {
      var r := readings[i];
      if r.NoSession? {
        assert r in readings;
        return None;
      }
      if !r.ok && r.printed.Blank? {
        disks := disks + [Unreadable(r.device)];
        continue;
      }
      if !r.printed.Smart? {
        assert r in readings;
        return None;
      }
      disks := disks + [Report(r.device, r.printed.health)];
    }
    var anyFailed := exists d | d in disks :: d.Report? && !d.passed;
    outcome := Some((if anyFailed then Failed else Passed, Disks(disks)));
    SmartStatus(readings);
    assert SmartOutcome(true, readings).value.1.disks == disks;
  }

  /** The probe's status is the verdict on its own disk list. */
  lemma SmartStatus(readings: seq<Reading>)
    requires SmartOutcome(true, readings).Some?
    ensures var (status, details) := SmartOutcome(true, readings).value;
            status == if SmartBad(details) then Failed else Passed
  {
    var details := SmartOutcome(true, readings).value.1;
    if r :| r in readings && BadReport(r) {
      var i :| 0 <= i < |readings| && readings[i] == r;
      assert details.disks[i] in details.disks;
    }
    if d :| d in details.disks && d.Report? && !d.passed {
      var i :| 0 <= i < |readings| && details.disks[i] == d;
      assert readings[i] in readings;
    }
  }

  /** A SMART phase is what the probe made of some readings. */
  ghost predicate Probed(p: PhaseResult) {
    p.phase == "hw_disks_smart" ==> exists readings :: SmartOutcome(true, readings) == Some((p.status, p.details))
  }

  /** A SMART phase's status is the verdict on its own disk list. */
  predicate Honest(p: PhaseResult) {
    p.phase == "hw_disks_smart" ==> p.status == if SmartBad(p.details) then Failed else Passed
  }

  lemma ProbedIsHonest(p: PhaseResult)
    requires Probed(p)
    ensures Honest(p)
  {
    if p.phase == "hw_disks_smart" {
      var readings :| SmartOutcome(true, readings) == Some((p.status, p.details));
      SmartStatus(readings);
    }
  }

  /** A machine result as the machine workflow assembles it. */
  predicate Assembled(m: MachineResult) {
    m.status == Overall(m.phases) && forall p | p in m.phases :: Honest(p)
  }

  /** End to end the batch must fail exactly when some returned machine has a
      phase that did not pass; neither flag changes that. */
  lemma AutoFail(plan: BatchPlan, ms: seq<MachineResult>)
    requires forall m | m in ms :: Assembled(m)
    ensures MustFail(plan, ms) <==> exists m | m in ms :: exists p | p in m.phases :: p.status != Passed
  {
    if m :| m in ms && m.status != Passed {
      var p :| p in m.phases && p.status != Passed;
    }
    if m, p :| m in ms && p in m.phases && p.status != Passed {
      assert !AllPassed(m.phases);
    }
  }

  // ---- Gathering -----------------------------------------------------------------

  function Somes<T>(xs: seq<Option<T>>): seq<T> {
    if xs == [] then []
    else Somes(xs[..|xs| - 1]) + match xs[|xs| - 1] case Some(x) => [x] case None => []
  }

  function Flatten<T>(x: Option<Option<T>>): Option<T> {
    match x case Some(inner) => inner case None => None
  }

  function Tagged(ms: seq<Option<MachineResult>>): seq<Option<ChildResult>> {
    seq(|ms|, i requires 0 <= i < |ms| => if ms[i].Some? then Some(MachineChild(ms[i].value)) else None)
  }

  function ChildEntry(child: Option<Option<GroupResult>>): seq<Option<ChildResult>> {
    match child
    case None => []
    case Some(None) => [None]
    case Some(Some(g)) => [Some(GroupChild(g))]
  }

  /** What `gather(return_exceptions=True)` yields: the machine children in plan
      order, then the mesh child if planned, then the encapsulation child if
      planned; None stands for a child that raised. */
  function Gathered(ms: seq<Option<MachineResult>>, mesh: Option<Option<GroupResult>>,
                    encap: Option<Option<GroupResult>>): seq<Option<ChildResult>>
  {
    Tagged(ms) + ChildEntry(mesh) + ChildEntry(encap)
  }

  lemma SomesSnoc<T>(xs: seq<Option<T>>, i: nat)
    requires i < |xs|
    ensures Somes(xs[..i + 1]) == Somes(xs[..i]) + match xs[i] case Some(x) => [x] case None => []
  {
    assert xs[..i + 1][..i] == xs[..i];
  }

  /** What stands at each position of the gathered list. */
  lemma GatheredAt(ms: seq<Option<MachineResult>>, mesh: Option<Option<GroupResult>>,
                   encap: Option<Option<GroupResult>>, i: nat)
    requires i < |Gathered(ms, mesh, encap)|
    ensures var entry := Gathered(ms, mesh, encap)[i];
            if i < |ms| then entry == (match ms[i] case Some(m) => Some(MachineChild(m)) case None => None)
            else if mesh.Some? && i == |ms|
            then entry == (match mesh.value case Some(g) => Some(GroupChild(g)) case None => None)
            else encap.Some? && entry == (match encap.value case Some(g) => Some(GroupChild(g)) case None => None)
  {
  }

  function GatheredLength(ms: seq<Option<MachineResult>>, mesh: Option<Option<GroupResult>>,
                          encap: Option<Option<GroupResult>>): (n: nat)
    ensures n == |Gathered(ms, mesh, encap)|
  {
    |ms| + (if mesh.Some? then 1 else 0) + (if encap.Some? then 1 else 0)
  }

  /** Sorting the gathered list out by position recovers every child's result, for
      any number of machines and any presence of the other two. */
  method Decode(gathered: seq<Option<ChildResult>>, machineTasks: nat, hasMesh: bool,
                ghost ms: seq<Option<MachineResult>>, ghost mesh: Option<Option<GroupResult>>,
                ghost encap: Option<Option<GroupResult>>)
    returns (machineResults: seq<MachineResult>, meshResult: Option<GroupResult>, encapResult: Option<GroupResult>)
    requires gathered == Gathered(ms, mesh, encap) && machineTasks == |ms| && hasMesh == mesh.Some?
    ensures machineResults == Somes(ms)
    ensures meshResult == Flatten(mesh) && encapResult == Flatten(encap)
  {
    machineResults, meshResult, encapResult := [], None, None;
    ghost var n := |ms|;
    ghost var groups := n + if hasMesh then 1 else 0;
    assert |gathered| == GatheredLength(ms, mesh, encap);
    for i := 0 to |gathered|
      invariant i <= n ==> machineResults == Somes(ms[..i])
      invariant i > n ==> machineResults == Somes(ms[..n])
      invariant meshResult == if i > n then Flatten(mesh) else None
      invariant encapResult == if i > groups then Flatten(encap) else None
    {
      GatheredAt(ms, mesh, encap, i);
      if i < n {
        SomesSnoc(ms, i);
      }
      if gathered[i].None? {
        continue;
      }
      var child := gathered[i].value;
      if i < machineTasks {
        machineResults := machineResults + [child.machine];
      } else if hasMesh && i == machineTasks {
        meshResult := Some(child.group);
      } else {
        encapResult := Some(child.group);
      }
    }
    assert ms[..n] == ms;
  }

  lemma {:induction false} SomesMember<T>(xs: seq<Option<T>>, x: T)
    ensures x in Somes(xs) <==> Some(x) in xs
  {
    if xs != [] {
      var n := |xs| - 1;
      assert xs == xs[..n] + [xs[n]];
      SomesMember(xs[..n], x);
    }
  }

  // ---- The verdict ------------------------------------------------------------------

  function Verdict(plan: BatchPlan, ms: seq<MachineResult>, mesh: Option<GroupResult>,
                   encap: Option<GroupResult>): Status
  {
    if MustFail(plan, ms) then Failed
    else if mesh.Some? && mesh.value.status != Passed then Failed
    else if encap.Some? && encap.value.status != Passed then Failed
    else Passed
  }

  /** The end of the batch workflow: decode the gathered children, apply the
      auto-fail rules, then let the mesh and encapsulation results fail it too. */
  method Conclude(plan: BatchPlan, gathered: seq<Option<ChildResult>>,
                  ghost ms: seq<Option<MachineResult>>, ghost mesh: Option<Option<GroupResult>>,
                  ghost encap: Option<Option<GroupResult>>)
    returns (result: BatchResult)
    requires gathered == Gathered(ms, mesh, encap)
    requires |plan.machinePlans| == |ms| && plan.meshPlan.Some? == mesh.Some?
    ensures result.machineResults == Somes(ms)
    ensures result.mesh == Flatten(mesh) && result.encap == Flatten(encap)
    ensures result.status == Verdict(plan, Somes(ms), Flatten(mesh), Flatten(encap))
  {
    var machineResults, meshResult, encapResult :=
      Decode(gathered, |plan.machinePlans|, plan.meshPlan.Some?, ms, mesh, encap);
    var fail := ShouldFail(plan, machineResults);
    var status := if fail then Failed else Passed;
    if meshResult.Some? && meshResult.value.status != Passed {
      status := Failed;
    }
    if encapResult.Some? && encapResult.value.status != Passed {
      status := Failed;
    }
    return BatchResult(status, machineResults, meshResult, encapResult);
  }
}
