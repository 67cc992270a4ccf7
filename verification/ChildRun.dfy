/** One child workflow as a transition system: activities of a group are in
    flight together, each with attempts left, and settle in any order. */
module ChildRun {

  import opened Wrappers
  import opened Model
  import opened Jobs

  datatype Slot = InFlight(left: nat) | Settled(result: PhaseResult)

  /** Where a child is: awaiting the group of a stage, persisting its phases,
      returned, raised by an activity, or raised by the persistence activity. */
  datatype Child =
    | Measuring(stage: nat, done: seq<PhaseResult>, failing: bool, slots: seq<Slot>)
    | Saving(phases: seq<PhaseResult>, left: nat)
    | Complete(phases: seq<PhaseResult>)
    | Crashed
    | Unsaved

  datatype Step =
    | Reply(slot: nat)                 // an attempt returns
    | Fail(slot: nat, retryable: bool) // an attempt raises
    | Advance                          // the whole group has settled
    | Finish                           // the last stage is over

  predicate Terminal(c: Child) {
    c.Complete? || c.Crashed? || c.Unsaved?
  }

  function Open(job: Job, stage: nat, done: seq<PhaseResult>, failing: bool): Child
    requires RunnableJob(job)
  {
    Measuring(stage, done, failing, seq(|Group(job, stage, done)|, _ => InFlight(job.MaxAttempts())))
  }

  /** An exception leaves the group: into the `finally`, or out of the workflow. */
  function Raise(job: Job, c: Child): Child
    requires RunnableJob(job) && c.Measuring?
  {
    if Guarded(job, c.stage) then Open(job, c.stage + 1, c.done, true) else Crashed
  }

  predicate AllSettled(slots: seq<Slot>) {
    forall s | s in slots :: s.Settled?
  }

  function SlotResults(slots: seq<Slot>): seq<PhaseResult>
    requires AllSettled(slots)
  {
    seq(|slots|, i requires 0 <= i < |slots| => assert slots[i] in slots; slots[i].result)
  }

  /** The child after a step, or None if the step cannot happen. An activity with
      attempts left may fail and be retried; its last failure is the oracle's. */
  function Take(job: Job, o: Oracle, c: Child, step: Step): Option<Child>
    requires RunnableJob(job)
  {
    if !c.Measuring? then None
    else
      var group := Group(job, c.stage, c.done);
      match step
      case Reply(i) =>
        if i < |c.slots| == |group| && c.slots[i].InFlight? && o(group[i]).Returned?
        then Some(c.(slots := c.slots[i := Settled(o(group[i]).result)]))
        else None
      case Fail(i, retryable) =>
        if !(i < |c.slots| == |group| && c.slots[i].InFlight?) then None
        else if retryable && c.slots[i].left > 1
        then Some(c.(slots := c.slots[i := InFlight(c.slots[i].left - 1)]))
        else if o(group[i]).Raised? then Some(Raise(job, c))
        else None
      case Advance =>
        if c.stage < Stages(job) && AllSettled(c.slots)
        then Some(Open(job, c.stage + 1, c.done + SlotResults(c.slots), c.failing))
        else None
      case Finish =>
        if c.stage != Stages(job) then None
        else if c.failing then Some(Crashed)
        else if job.BatchId().None? then Some(Complete(c.done))
        else Some(Saving(c.done, job.MaxAttempts()))
  }

  // ---- Schedule independence -------------------------------------------------

  /** Whatever the schedule so far: all earlier stages are over with the results
      the sequential reading gives, and only the current group is in flight. */
  predicate OnTrack(job: Job, o: Oracle, c: Child)
    requires RunnableJob(job)
  {
    match c
    case Measuring(stage, done, failing, slots) =>
      var group := Group(job, stage, done);
      && stage <= Stages(job)
      && RunTo(job, stage, o) == Going(done, failing)
      && |slots| == |group|
      && forall i | 0 <= i < |slots| ::
           if slots[i].Settled? then o(group[i]) == Returned(slots[i].result)
           else 1 <= slots[i].left <= job.MaxAttempts()
    case Saving(phases, left) => Results(job, o) == Some(phases) && 1 <= left <= job.MaxAttempts()
    case Complete(phases) => Results(job, o) == Some(phases)
    case Crashed => Results(job, o) == None
    case Unsaved => Results(job, o).Some?
  }

  lemma OpenOnTrack(job: Job, o: Oracle, stage: nat, done: seq<PhaseResult>, failing: bool)
    requires RunnableJob(job) && job.MaxAttempts() >= 1
    requires stage <= Stages(job) && RunTo(job, stage, o) == Going(done, failing)
    ensures OnTrack(job, o, Open(job, stage, done, failing))
  {
  }

  lemma RaiseStaysOnTrack(job: Job, o: Oracle, c: Child, i: nat)
    requires RunnableJob(job) && job.MaxAttempts() >= 1 && OnTrack(job, o, c) && c.Measuring?
    requires i < |c.slots| && o(Group(job, c.stage, c.done)[i]).Raised?
    ensures OnTrack(job, o, Raise(job, c))
  {
    var group := Group(job, c.stage, c.done);
    assert group[i] in group;
    GroupsEnd(job, c.done);
    if Guarded(job, c.stage) {
      OpenOnTrack(job, o, c.stage + 1, c.done, true);
    } else {
      GoneStays(job, c.stage + 1, Stages(job), o);
    }
  }

  lemma AdvanceStaysOnTrack(job: Job, o: Oracle, c: Child)
    requires RunnableJob(job) && job.MaxAttempts() >= 1 && OnTrack(job, o, c) && c.Measuring?
    requires c.stage < Stages(job) && AllSettled(c.slots)
    ensures OnTrack(job, o, Open(job, c.stage + 1, c.done + SlotResults(c.slots), c.failing))
  {
    var group := Group(job, c.stage, c.done);
    forall a | a in group ensures o(a).Returned? {
      var i :| 0 <= i < |group| && group[i] == a;
      assert c.slots[i] in c.slots;
    }
    assert SlotResults(c.slots) == Collect(group, o);
    OpenOnTrack(job, o, c.stage + 1, c.done + SlotResults(c.slots), c.failing);
  }

  lemma TakeStaysOnTrack(job: Job, o: Oracle, c: Child, step: Step)
    requires RunnableJob(job) && job.MaxAttempts() >= 1
    requires OnTrack(job, o, c) && Take(job, o, c, step).Some?
    ensures OnTrack(job, o, Take(job, o, c, step).value)
  {
    match step
    case Reply(_) =>
    case Fail(i, retryable) =>
      if !(retryable && c.slots[i].left > 1) {
        RaiseStaysOnTrack(job, o, c, i);
      }
    case Advance => AdvanceStaysOnTrack(job, o, c);
    case Finish =>
  }

  /** After the last stage nothing is scheduled. */
  lemma GroupsEnd(job: Job, done: seq<PhaseResult>)
    requires RunnableJob(job)
    ensures Group(job, Stages(job), done) == []
  {
  }

  function Run(job: Job, o: Oracle, steps: seq<Step>): Option<Child>
    requires RunnableJob(job)
  {
    if steps == [] then Some(Open(job, 0, [], false))
    else
      match Run(job, o, steps[..|steps| - 1])
      case None => None
      case Some(c) => Take(job, o, c, steps[|steps| - 1])
  }

  lemma {:induction false} RunStaysOnTrack(job: Job, o: Oracle, steps: seq<Step>)
    requires RunnableJob(job) && job.MaxAttempts() >= 1 && Run(job, o, steps).Some?
    ensures OnTrack(job, o, Run(job, o, steps).value)
  {
    if steps == [] {
      OpenOnTrack(job, o, 0, [], false);
    } else {
      RunStaysOnTrack(job, o, steps[..|steps| - 1]);
      TakeStaysOnTrack(job, o, Run(job, o, steps[..|steps| - 1]).value, steps[|steps| - 1]);
    }
  }

  /** The activities a child has in flight. */
  predicate InFlightAt(job: Job, c: Child, i: nat, a: Activity)
    requires RunnableJob(job)
  {
    c.Measuring? && i < |c.slots| == |Group(job, c.stage, c.done)| &&
    c.slots[i].InFlight? && a == Group(job, c.stage, c.done)[i]
  }

  /** While a throughput measurement is in flight it is its stage's only activity. */
  lemma OnePairPerStage(p: MeshPlan, c: Child, i: nat, a: Activity, j: nat, b: Activity)
    requires InFlightAt(MeshJob(p), c, i, a) && InFlightAt(MeshJob(p), c, j, b) && a.Iperf3Pair?
    ensures i == j && a == b && 2 <= c.stage < 2 + |IperfGroup(|p.machines|)|
  {
  }

  /** The mesh never has two throughput measurements in flight, and none before
      every MTU and jumbo check is over. */
  lemma OneThroughputAtATime(p: MeshPlan, o: Oracle, steps: seq<Step>, i: nat, a: Activity, j: nat, b: Activity)
    requires p.maxAttempts >= 1 && Run(MeshJob(p), o, steps).Some?
    requires var c := Run(MeshJob(p), o, steps).value;
             InFlightAt(MeshJob(p), c, i, a) && InFlightAt(MeshJob(p), c, j, b) && a.Iperf3Pair?
    ensures i == j && a == b
    ensures var c := Run(MeshJob(p), o, steps).value;
            var checks := MtuGroup(|p.machines|) + if p.verifyJumbo then JumboGroup(|p.machines|) else [];
            |c.done| == |checks| + c.stage - 2 && !Raises(checks, o) && c.done[..|checks|] == Collect(checks, o)
  {
    var c := Run(MeshJob(p), o, steps).value;
    RunStaysOnTrack(MeshJob(p), o, steps);
    OnePairPerStage(p, c, i, a, j, b);
    ChecksAreOver(p, o, c);
  }

  lemma ChecksAreOver(p: MeshPlan, o: Oracle, c: Child)
    requires OnTrack(MeshJob(p), o, c) && c.Measuring? && 2 <= c.stage < 2 + |IperfGroup(|p.machines|)|
    ensures var checks := MtuGroup(|p.machines|) + if p.verifyJumbo then JumboGroup(|p.machines|) else [];
            |c.done| == |checks| + c.stage - 2 && !Raises(checks, o) && c.done[..|checks|] == Collect(checks, o)
  {
    MeshBefore(p, o, c.stage - 2);
  }

  lemma {:induction false} MeshBefore(p: MeshPlan, o: Oracle, k: nat)
    requires k < |IperfGroup(|p.machines|)| && RunTo(MeshJob(p), 2 + k, o).Going?
    ensures var done := RunTo(MeshJob(p), 2 + k, o).done;
            var checks := MtuGroup(|p.machines|) + if p.verifyJumbo then JumboGroup(|p.machines|) else [];
            |done| == |checks| + k && !Raises(checks, o) && done[..|checks|] == Collect(checks, o)
  {
    var job := MeshJob(p);
    if k == 0 {
      assert RunTo(job, 0, o) == Going([], false);
      assert RunTo(job, 1, o).Going?;
      CollectAppend(MtuGroup(|p.machines|), if p.verifyJumbo then JumboGroup(|p.machines|) else [], o);
    } else {
      MeshBefore(p, o, k - 1);
    }
  }

  predicate Measured(c: Child) {
    !c.Measuring?
  }

  /** For fixed activity outcomes every interleaving and every pattern of retries
      ends the same way: with the sequential phase list, or raising. */
  lemma ScheduleIndependence(job: Job, o: Oracle, steps: seq<Step>)
    requires RunnableJob(job) && job.MaxAttempts() >= 1
    requires Run(job, o, steps).Some? && Measured(Run(job, o, steps).value)
    ensures var c := Run(job, o, steps).value;
            match Results(job, o)
            case None => c == Crashed
            case Some(phases) =>
              c == if job.BatchId().None? then Complete(phases) else Saving(phases, job.MaxAttempts())
  {
    RunStaysOnTrack(job, o, steps);
    FreshlyMeasured(job, o, steps);
  }

  lemma FreshlyMeasured(job: Job, o: Oracle, steps: seq<Step>)
    requires RunnableJob(job) && Run(job, o, steps).Some? && Measured(Run(job, o, steps).value)
    ensures var c := Run(job, o, steps).value;
            match c
            case Saving(_, left) => job.BatchId().Some? && left == job.MaxAttempts()
            case Complete(_) => job.BatchId().None?
            case _ => c.Crashed?
  {
    assert steps != [];
    var before := Run(job, o, steps[..|steps| - 1]).value;
    assert before.Measuring?;
  }

  // ---- The teardown is attempted -----------------------------------------------

  /** The step is an attempt of activity `a`. */
  predicate Tries(job: Job, c: Child, step: Step, a: Activity)
    requires RunnableJob(job)
  {
    match step
    case Reply(i) => InFlightAt(job, c, i, a)
    case Fail(i, _) => InFlightAt(job, c, i, a)
    case _ => false
  }

  /** Some step of the run is an attempt of activity `a`. */
  predicate Attempted(job: Job, o: Oracle, steps: seq<Step>, a: Activity)
    requires RunnableJob(job) && Run(job, o, steps).Some?
  {
    steps != [] &&
    var n := |steps| - 1;
    Attempted(job, o, steps[..n], a) || Tries(job, Run(job, o, steps[..n]).value, steps[n], a)
  }

  /** What a state of an encapsulation child says about the attempts so far. */
  predicate TeardownKnown(o: Oracle, c: Child, attempted: bool) {
    match c
    case Measuring(stage, _, _, slots) =>
      if stage < 2 then !attempted
      else if stage == 2 then o(SetupVxlan).Returned? && (slots != [] && slots[0].Settled? ==> attempted)
      else o(SetupVxlan).Returned? && attempted
    case _ => attempted <==> o(SetupVxlan).Returned?
  }

  lemma TeardownKnownStep(p: EncapPlan, o: Oracle, c: Child, step: Step, attempted: bool)
    requires p.maxAttempts >= 1 && OnTrack(EncapJob(p), o, c) && Take(EncapJob(p), o, c, step).Some?
    requires TeardownKnown(o, c, attempted)
    ensures TeardownKnown(o, Take(EncapJob(p), o, c, step).value,
                          attempted || Tries(EncapJob(p), c, step, TeardownVxlan))
  {
    var job := EncapJob(p);
    if c.stage == 0 {
      assert Group(job, 0, c.done) == [SetupVxlan];
    } else if c.stage == 1 {
      assert RunTo(job, 0, o) == Going([], false) && RunTo(job, 1, o).Going?;
      assert SetupVxlan in Group(job, 0, []);
    } else if c.stage == 2 {
      assert Group(job, 2, c.done) == [TeardownVxlan];
      assert step.Advance? ==> c.slots[0] in c.slots;
    }
  }

  lemma {:induction false} TeardownKnownAlong(p: EncapPlan, o: Oracle, steps: seq<Step>)
    requires p.maxAttempts >= 1 && Run(EncapJob(p), o, steps).Some?
    ensures TeardownKnown(o, Run(EncapJob(p), o, steps).value, Attempted(EncapJob(p), o, steps, TeardownVxlan))
  {
    if steps != [] {
      var n := |steps| - 1;
      TeardownKnownAlong(p, o, steps[..n]);
      RunStaysOnTrack(EncapJob(p), o, steps[..n]);
      TeardownKnownStep(p, o, Run(EncapJob(p), o, steps[..n]).value, steps[n],
                        Attempted(EncapJob(p), o, steps[..n], TeardownVxlan));
    }
  }

  /** Under every schedule, once an encapsulation child is past measuring it has
      attempted the teardown exactly when its setup returned: a raising measurement
      does not skip it, a raising setup does. */
  lemma TeardownAttempted(p: EncapPlan, o: Oracle, steps: seq<Step>)
    requires p.maxAttempts >= 1 && Run(EncapJob(p), o, steps).Some?
    requires Measured(Run(EncapJob(p), o, steps).value)
    ensures Attempted(EncapJob(p), o, steps, TeardownVxlan) <==> o(SetupVxlan).Returned?
  {
    TeardownKnownAlong(p, o, steps);
  }

  // ---- Retries -----------------------------------------------------------------

  /** The failed attempts of slot `i` while the child was at `stage`. */
  function Failures(job: Job, o: Oracle, steps: seq<Step>, stage: nat, i: nat): nat
    requires RunnableJob(job) && Run(job, o, steps).Some?
  {
    if steps == [] then 0
    else
      var before, step := Run(job, o, steps[..|steps| - 1]).value, steps[|steps| - 1];
      Failures(job, o, steps[..|steps| - 1], stage, i) +
      if before.Measuring? && before.stage == stage && step.Fail? && step.slot == i then 1 else 0
  }

  /** A slot has left what its failures at this stage have not used up. */
  predicate SlotCounted(job: Job, slot: Slot, failures: nat) {
    match slot
    case InFlight(left) => left + failures == job.MaxAttempts()
    case Settled(_) => failures < job.MaxAttempts()
  }

  lemma {:induction false} NoFailuresAhead(job: Job, o: Oracle, steps: seq<Step>, stage: nat, i: nat)
    requires RunnableJob(job) && Run(job, o, steps).Some?
    requires Run(job, o, steps).value.Measuring? && Run(job, o, steps).value.stage < stage
    ensures Failures(job, o, steps, stage, i) == 0
  {
    if steps != [] {
      NoFailuresAhead(job, o, steps[..|steps| - 1], stage, i);
    }
  }

  lemma SlotStepCounted(job: Job, o: Oracle, c: Child, step: Step, i: nat, failures: nat)
    requires RunnableJob(job) && OnTrack(job, o, c) && Take(job, o, c, step).Some?
    requires var next := Take(job, o, c, step).value;
             next.Measuring? && next.stage == c.stage && i < |next.slots| && i < |c.slots|
    requires SlotCounted(job, c.slots[i], failures)
    ensures var next := Take(job, o, c, step).value;
            SlotCounted(job, next.slots[i], failures + if step.Fail? && step.slot == i then 1 else 0)
  {
  }

  lemma FreshSlots(job: Job, o: Oracle, c: Child, step: Step, i: nat)
    requires RunnableJob(job) && Take(job, o, c, step).Some?
    requires var next := Take(job, o, c, step).value;
             next.Measuring? && next.stage != c.stage && i < |next.slots|
    ensures Take(job, o, c, step).value.stage == c.stage + 1
    ensures Take(job, o, c, step).value.slots[i] == InFlight(job.MaxAttempts())
  {
  }

  lemma SameStage(job: Job, o: Oracle, c: Child, step: Step)
    requires RunnableJob(job) && Take(job, o, c, step).Some?
    requires Take(job, o, c, step).value.Measuring? && Take(job, o, c, step).value.stage == c.stage
    ensures |Take(job, o, c, step).value.slots| == |c.slots|
  {
  }

  lemma FailuresSnoc(job: Job, o: Oracle, steps: seq<Step>, i: nat)
    requires RunnableJob(job) && steps != [] && Run(job, o, steps).Some?
    ensures var before, step := steps[..|steps| - 1], steps[|steps| - 1];
            var b := Run(job, o, before).value;
            && Take(job, o, b, step) == Run(job, o, steps) && b.Measuring?
            && Failures(job, o, steps, b.stage, i) ==
               Failures(job, o, before, b.stage, i) + if step.Fail? && step.slot == i then 1 else 0
  {
  }

  /** In every run an activity in flight has exactly its unused attempts left: none
      gets fewer than the policy allows, and none more. */
  lemma {:induction false} RetriesCounted(job: Job, o: Oracle, steps: seq<Step>, i: nat)
    requires RunnableJob(job) && job.MaxAttempts() >= 1 && Run(job, o, steps).Some?
    requires Run(job, o, steps).value.Measuring? && i < |Run(job, o, steps).value.slots|
    ensures var c := Run(job, o, steps).value;
            SlotCounted(job, c.slots[i], Failures(job, o, steps, c.stage, i))
    decreases |steps|, 1
  {
    if steps != [] {
      var before, step := steps[..|steps| - 1], steps[|steps| - 1];
      FailuresSnoc(job, o, steps, i);
      if Run(job, o, steps).value.stage == Run(job, o, before).value.stage {
        SameStageCounted(job, o, steps, i);
      } else {
        FreshSlots(job, o, Run(job, o, before).value, step, i);
        NewStageCounted(job, o, steps, i);
      }
    }
  }

  lemma {:induction false} SameStageCounted(job: Job, o: Oracle, steps: seq<Step>, i: nat)
    requires RunnableJob(job) && job.MaxAttempts() >= 1 && steps != [] && Run(job, o, steps).Some?
    requires Run(job, o, steps).value.Measuring? && i < |Run(job, o, steps).value.slots|
    requires Run(job, o, steps[..|steps| - 1]).Some?
    requires Run(job, o, steps).value.stage == Run(job, o, steps[..|steps| - 1]).value.stage
    ensures var c := Run(job, o, steps).value;
            SlotCounted(job, c.slots[i], Failures(job, o, steps, c.stage, i))
    decreases |steps|, 0
  {
    var before, step := steps[..|steps| - 1], steps[|steps| - 1];
    var b := Run(job, o, before).value;
    FailuresSnoc(job, o, steps, i);
    SameStage(job, o, b, step);
    RetriesCounted(job, o, before, i);
    RunStaysOnTrack(job, o, before);
    SlotStepCounted(job, o, b, step, i, Failures(job, o, before, b.stage, i));
  }

  lemma NewStageCounted(job: Job, o: Oracle, steps: seq<Step>, i: nat)
    requires RunnableJob(job) && job.MaxAttempts() >= 1 && steps != [] && Run(job, o, steps).Some?
    requires Run(job, o, steps).value.Measuring? && i < |Run(job, o, steps).value.slots|
    requires Run(job, o, steps[..|steps| - 1]).Some? && Run(job, o, steps[..|steps| - 1]).value.Measuring?
    requires Run(job, o, steps).value.stage > Run(job, o, steps[..|steps| - 1]).value.stage
    requires Run(job, o, steps).value.slots[i] == InFlight(job.MaxAttempts())
    ensures var c := Run(job, o, steps).value;
            SlotCounted(job, c.slots[i], Failures(job, o, steps, c.stage, i))
  {
    NoFailuresAhead(job, o, steps[..|steps| - 1], Run(job, o, steps).value.stage, i);
  }

  lemma RunMore(job: Job, o: Oracle, steps: seq<Step>, step: Step)
    requires RunnableJob(job) && Run(job, o, steps).Some?
    ensures Run(job, o, steps + [step]) == Take(job, o, Run(job, o, steps).value, step)
  {
    assert (steps + [step])[..|steps|] == steps;
  }

  function WithSlot(c: Child, i: nat, slot: Slot): Child
    requires c.Measuring? && i < |c.slots|
  {
    c.(slots := c.slots[i := slot])
  }

  predicate Trying(job: Job, c: Child, i: nat)
    requires RunnableJob(job)
  {
    c.Measuring? && i < |c.slots| == |Group(job, c.stage, c.done)| && c.slots[i].InFlight?
  }

  /** What becomes of a slot with `left` attempts: retried, settled or given up. */
  lemma TakeAtSlot(job: Job, o: Oracle, c: Child, i: nat, left: nat)
    requires RunnableJob(job) && Trying(job, c, i) && left >= 1
    ensures var a, b := Group(job, c.stage, c.done)[i], WithSlot(c, i, InFlight(left));
            && (left > 1 ==> Take(job, o, b, Fail(i, true)) == Some(WithSlot(c, i, InFlight(left - 1))))
            && (left == 1 && o(a).Raised? ==> Take(job, o, b, Fail(i, true)) == Some(Raise(job, c)))
            && (o(a).Returned? ==> Take(job, o, b, Reply(i)) == Some(WithSlot(c, i, Settled(o(a).result))))
  {
    var b := WithSlot(c, i, InFlight(left));
    assert b.slots[i := InFlight(left - 1)] == c.slots[i := InFlight(left - 1)];
    if o(Group(job, c.stage, c.done)[i]).Returned? {
      var settled := Settled(o(Group(job, c.stage, c.done)[i]).result);
      assert b.slots[i := settled] == c.slots[i := settled];
    }
  }

  lemma SameSlot(c: Child, i: nat)
    requires c.Measuring? && i < |c.slots|
    ensures WithSlot(c, i, c.slots[i]) == c
  {
    assert c.slots[i := c.slots[i]] == c.slots;
  }

  /** The run has brought the child to `c`, but with `left` attempts in slot `i`. */
  predicate HasLeft(job: Job, o: Oracle, steps: seq<Step>, c: Child, i: nat, left: nat)
    requires RunnableJob(job) && c.Measuring? && i < |c.slots|
  {
    Run(job, o, steps) == Some(WithSlot(c, i, InFlight(left)))
  }

  lemma OneMoreFailure(job: Job, o: Oracle, steps: seq<Step>, c: Child, i: nat, left: nat)
    requires RunnableJob(job) && Trying(job, c, i) && left > 1 && HasLeft(job, o, steps, c, i, left)
    ensures HasLeft(job, o, steps + [Fail(i, true)], c, i, left - 1)
  {
    RunMore(job, o, steps, Fail(i, true));
    TakeAtSlot(job, o, c, i, left);
  }

  /** While attempts are left, retryable failures cost one each and nothing else. */
  lemma {:induction false} FailsDownTo(job: Job, o: Oracle, steps: seq<Step>, c: Child, i: nat, left: nat, less: nat)
    returns (longer: seq<Step>)
    requires RunnableJob(job) && Trying(job, c, i) && HasLeft(job, o, steps, c, i, left) && 1 <= less <= left
    ensures HasLeft(job, o, longer, c, i, less) && |longer| == |steps| + left - less
    decreases left
  {
    longer := steps;
    if less < left {
      OneMoreFailure(job, o, steps, c, i, left);
      longer := FailsDownTo(job, o, steps + [Fail(i, true)], c, i, left - 1, less);
    }
  }

  lemma AfterFailures(job: Job, o: Oracle, failed: seq<Step>, c: Child, i: nat, left: nat)
    requires RunnableJob(job) && Trying(job, c, i) && left >= 1 && HasLeft(job, o, failed, c, i, left)
    ensures var a := Group(job, c.stage, c.done)[i];
            && (o(a).Returned? ==>
                  Run(job, o, failed + [Reply(i)]) == Some(WithSlot(c, i, Settled(o(a).result))))
            && (o(a).Raised? && left == 1 ==> Run(job, o, failed + [Fail(i, true)]) == Some(Raise(job, c)))
  {
    RunMore(job, o, failed, Reply(i));
    RunMore(job, o, failed, Fail(i, true));
    TakeAtSlot(job, o, c, i, left);
  }

  /** An activity that would return does so after any number `k` of retryable failures
      short of its attempts; one that would raise is retried until its last attempt,
      and given up with it. */
  lemma RetriedToTheEnd(job: Job, o: Oracle, steps: seq<Step>, c: Child, i: nat, k: nat) returns (failed: seq<Step>)
    requires RunnableJob(job) && Run(job, o, steps) == Some(c) && Trying(job, c, i) && k < c.slots[i].left
    ensures |failed| == |steps| + k
    ensures Run(job, o, failed) == Some(WithSlot(c, i, InFlight(c.slots[i].left - k)))
    ensures var a := Group(job, c.stage, c.done)[i];
            && (o(a).Returned? ==>
                  Run(job, o, failed + [Reply(i)]) == Some(WithSlot(c, i, Settled(o(a).result))))
            && (o(a).Raised? && k == c.slots[i].left - 1 ==>
                  Run(job, o, failed + [Fail(i, true)]) == Some(Raise(job, c)))
  {
    SameSlot(c, i);
    failed := FailsDownTo(job, o, steps, c, i, c.slots[i].left, c.slots[i].left - k);
    AfterFailures(job, o, failed, c, i, c.slots[i].left - k);
  }

  // ---- Failures against exceptions ----------------------------------------------

  lemma RaiseEnds(job: Job, o: Oracle, k: nat)
    requires RunnableJob(job) && !Guarded(job, k) && RunTo(job, k, o).Going?
    requires Raises(Group(job, k, RunTo(job, k, o).done), o)
    ensures RunTo(job, k + 1, o).Gone?
  {
  }

  lemma GoneHasNoResults(job: Job, o: Oracle, n: nat)
    requires RunnableJob(job) && n <= Stages(job) && RunTo(job, n, o).Gone?
    ensures Results(job, o).None?
  {
    GoneStays(job, n, Stages(job), o);
  }

  lemma GoneStops(job: Job, o: Oracle, c: Child, n: nat)
    requires RunnableJob(job) && OnTrack(job, o, c) && n <= Stages(job) && RunTo(job, n, o).Gone?
    ensures if c.Measuring? then c.stage < n else c.Crashed?
  {
    GoneHasNoResults(job, o, n);
    if c.Measuring? && c.stage >= n {
      GoneStays(job, n, c.stage, o);
    }
  }

  lemma NothingAfterGone(job: Job, o: Oracle, steps: seq<Step>, n: nat)
    requires RunnableJob(job) && job.MaxAttempts() >= 1 && Run(job, o, steps).Some?
    requires n <= Stages(job) && RunTo(job, n, o).Gone?
    ensures var c := Run(job, o, steps).value; if c.Measuring? then c.stage < n else c.Crashed?
  {
    RunStaysOnTrack(job, o, steps);
    GoneStops(job, o, Run(job, o, steps).value, n);
  }

  /** An exception in a stage stops every later one: under no schedule does the
      child get past that stage. */
  lemma NothingAfterRaise(job: Job, o: Oracle, steps: seq<Step>, k: nat)
    requires RunnableJob(job) && job.MaxAttempts() >= 1 && Run(job, o, steps).Some?
    requires k < Stages(job) && !Guarded(job, k) && RunTo(job, k, o).Going?
    requires Raises(Group(job, k, RunTo(job, k, o).done), o)
    ensures var c := Run(job, o, steps).value; if c.Measuring? then c.stage <= k else c.Crashed?
  {
    RaiseEnds(job, o, k);
    NothingAfterGone(job, o, steps, k + 1);
  }

  /** The stages a machine child is done with. */
  function StagesOver(c: Child): nat {
    match c
    case Measuring(stage, _, _, _) => stage
    case Crashed => 0
    case _ => 4
  }

  /** Every activity of the stages that are over, and every settled one of the
      current stage, has been attempted. */
  ghost predicate OverAttempted(p: MachinePlan, o: Oracle, steps: seq<Step>)
    requires Runnable(p) && Run(MachineJob(p), o, steps).Some?
  {
    var job, c := MachineJob(p), Run(MachineJob(p), o, steps).value;
    && (forall k, a | 0 <= k < StagesOver(c) && k < 4 && a in MachineGroups(p, o)[k] :: Attempted(job, o, steps, a))
    && (c.Measuring? ==>
          forall i | 0 <= i < |c.slots| && i < |Group(job, c.stage, c.done)| && c.slots[i].Settled? ::
            Attempted(job, o, steps, Group(job, c.stage, c.done)[i]))
  }

  /** A group all of whose slots have settled has been attempted. */
  lemma SettledGroup(p: MachinePlan, o: Oracle, steps: seq<Step>, a: Activity)
    requires Runnable(p) && p.maxAttempts >= 1 && Run(MachineJob(p), o, steps).Some? && OverAttempted(p, o, steps)
    requires var c := Run(MachineJob(p), o, steps).value;
             c.Measuring? && c.stage < 4 && AllSettled(c.slots) && a in MachineGroups(p, o)[c.stage]
    ensures Attempted(MachineJob(p), o, steps, a)
  {
    var job, c := MachineJob(p), Run(MachineJob(p), o, steps).value;
    RunStaysOnTrack(job, o, steps);
    MachineSchedules(p, o);
    var group := Group(job, c.stage, c.done);
    assert group == MachineGroups(p, o)[c.stage];
    var i :| 0 <= i < |group| && group[i] == a;
    assert c.slots[i] in c.slots;
  }

  lemma AttemptedGrows(job: Job, o: Oracle, steps: seq<Step>, a: Activity)
    requires RunnableJob(job) && steps != [] && Run(job, o, steps).Some?
    requires Attempted(job, o, steps[..|steps| - 1], a)
             || Tries(job, Run(job, o, steps[..|steps| - 1]).value, steps[|steps| - 1], a)
    ensures Attempted(job, o, steps, a)
  {
  }

  /** A stage gets over only once all of it has settled. */
  lemma StageGetsOver(job: Job, o: Oracle, c: Child, step: Step, k: nat)
    requires job.MachineJob? && RunnableJob(job) && OnTrack(job, o, c) && Take(job, o, c, step).Some?
    requires k < 4 && k < StagesOver(Take(job, o, c, step).value)
    ensures k < c.stage || (k == c.stage && AllSettled(c.slots))
  {
  }

  lemma OverAttemptedStages(p: MachinePlan, o: Oracle, steps: seq<Step>, k: nat, a: Activity)
    requires Runnable(p) && p.maxAttempts >= 1 && steps != [] && Run(MachineJob(p), o, steps).Some?
    requires OverAttempted(p, o, steps[..|steps| - 1])
    requires k < 4 && k < StagesOver(Run(MachineJob(p), o, steps).value) && a in MachineGroups(p, o)[k]
    ensures Attempted(MachineJob(p), o, steps, a)
  {
    var job, before, step := MachineJob(p), steps[..|steps| - 1], steps[|steps| - 1];
    RunStaysOnTrack(job, o, before);
    StageGetsOver(job, o, Run(job, o, before).value, step, k);
    if k == Run(job, o, before).value.stage {
      SettledGroup(p, o, before, a);
    }
    AttemptedGrows(job, o, steps, a);
  }

  /** A settled slot was settled before, or the step is the reply that settles it. */
  lemma SlotSettles(job: Job, o: Oracle, b: Child, step: Step, i: nat)
    requires RunnableJob(job) && Take(job, o, b, step).Some?
    requires var c := Take(job, o, b, step).value; c.Measuring? && i < |c.slots| && c.slots[i].Settled?
    ensures var c := Take(job, o, b, step).value;
            && c.stage == b.stage && c.done == b.done && |b.slots| == |c.slots|
            && (step == Step.Reply(i) || b.slots[i].Settled?)
  {
  }

  lemma OverAttemptedSlots(p: MachinePlan, o: Oracle, steps: seq<Step>, i: nat)
    requires Runnable(p) && p.maxAttempts >= 1 && steps != [] && Run(MachineJob(p), o, steps).Some?
    requires OverAttempted(p, o, steps[..|steps| - 1])
    requires var c := Run(MachineJob(p), o, steps).value;
             c.Measuring? && i < |c.slots| == |Group(MachineJob(p), c.stage, c.done)| && c.slots[i].Settled?
    ensures var c := Run(MachineJob(p), o, steps).value;
            Attempted(MachineJob(p), o, steps, Group(MachineJob(p), c.stage, c.done)[i])
  {
    var job, before, step := MachineJob(p), steps[..|steps| - 1], steps[|steps| - 1];
    var b, c := Run(job, o, before).value, Run(job, o, steps).value;
    SlotSettles(job, o, b, step, i);
    AttemptedGrows(job, o, steps, Group(job, c.stage, c.done)[i]);
  }

  lemma {:induction false} OverAttemptedAlong(p: MachinePlan, o: Oracle, steps: seq<Step>)
    requires Runnable(p) && p.maxAttempts >= 1 && Run(MachineJob(p), o, steps).Some?
    ensures OverAttempted(p, o, steps)
  {
    if steps != [] {
      var job, c := MachineJob(p), Run(MachineJob(p), o, steps).value;
      OverAttemptedAlong(p, o, steps[..|steps| - 1]);
      RunStaysOnTrack(job, o, steps);
      forall k, a | 0 <= k < StagesOver(c) && k < 4 && a in MachineGroups(p, o)[k]
        ensures Attempted(job, o, steps, a)
      {
        OverAttemptedStages(p, o, steps, k, a);
      }
      if c.Measuring? {
        forall i | 0 <= i < |c.slots| && c.slots[i].Settled?
          ensures Attempted(job, o, steps, Group(job, c.stage, c.done)[i])
        {
          OverAttemptedSlots(p, o, steps, i);
        }
      }
    }
  }

  /** A failure that an activity returns skips nothing: under every schedule, a
      machine child that ends without an exception has attempted every activity of
      every group, whatever their statuses (only the package installation waits for
      the SSH check to pass). */
  lemma FailuresSkipNothing(p: MachinePlan, o: Oracle, steps: seq<Step>, a: Activity)
    requires Runnable(p) && p.maxAttempts >= 1 && Run(MachineJob(p), o, steps).Some?
    requires Measured(Run(MachineJob(p), o, steps).value) && !Raises(Concat(MachineGroups(p, o)), o)
    requires ("setup" in p.phases && a == SshCheck) || a in SetupGroup(p, o)
             || ("hardware" in p.phases && a in ProbeGroup()) || a in StressGroup(p)
    ensures Attempted(MachineJob(p), o, steps, a)
  {
    OverAttemptedAlong(p, o, steps);
    MachineLayout(p, o);
    ScheduleIndependence(MachineJob(p), o, steps);
    var k := if "setup" in p.phases && a == SshCheck then 0 else if a in SetupGroup(p, o) then 1
             else if a in StressGroup(p) then 3 else 2;
    assert a in MachineGroups(p, o)[k];
  }

  // ---- Termination -------------------------------------------------------------

  /** The most activities a stage can schedule. */
  function Cap(job: Job, stage: nat): nat
    requires RunnableJob(job)
  {
    if stage == 1 && !job.MeshJob? then 1 else |Group(job, stage, [])|
  }

  lemma GroupWithinCap(job: Job, stage: nat, done: seq<PhaseResult>)
    requires RunnableJob(job)
    ensures |Group(job, stage, done)| <= Cap(job, stage)
  {
  }

  /** Attempts that the stages from `stage` on can make. */
  function Ahead(job: Job, stage: nat): nat
    requires RunnableJob(job)
    decreases Stages(job) - stage
  {
    if stage >= Stages(job) then 0
    else job.MaxAttempts() * Cap(job, stage) + Ahead(job, stage + 1)
  }

  function SlotAttempts(slots: seq<Slot>): nat {
    if slots == [] then 0
    else SlotAttempts(slots[..|slots| - 1]) + if slots[|slots| - 1].InFlight? then slots[|slots| - 1].left else 0
  }

  /** The attempts a child can still make, its own persistence included. */
  function AttemptsLeft(job: Job, c: Child): nat
    requires RunnableJob(job)
  {
    match c
    case Measuring(stage, _, _, slots) => SlotAttempts(slots) + Ahead(job, stage + 1) + job.MaxAttempts()
    case Saving(_, left) => left
    case _ => 0
  }

  /** A measure that every step of the child decreases. */
  function Weight(job: Job, c: Child): nat
    requires RunnableJob(job)
  {
    2 * AttemptsLeft(job, c) +
    if c.Measuring? && c.stage <= Stages(job) then Stages(job) - c.stage + 1 else 0
  }

  function AttemptCost(step: Step): nat {
    if step.Reply? || step.Fail? then 1 else 0
  }

  function InFlightSlots(slots: seq<Slot>): nat {
    if slots == [] then 0
    else InFlightSlots(slots[..|slots| - 1]) + if slots[|slots| - 1].InFlight? then 1 else 0
  }

  /** The attempts under way. */
  function UnderWay(c: Child): nat {
    match c
    case Measuring(_, _, _, slots) => InFlightSlots(slots)
    case Saving(_, _) => 1
    case _ => 0
  }

  /** The attempts a step starts: one for a retry, and all of a group, or the
      persistence, when the child moves on to it. */
  function Starts(c: Child, step: Step, next: Child): nat {
    match step
    case Reply(_) => 0
    case Fail(_, _) => if c.Measuring? && next.Measuring? && next.stage == c.stage then 1 else UnderWay(next)
    case _ => UnderWay(next)
  }

  lemma {:induction false} SlotAttemptsUpdate(slots: seq<Slot>, i: nat, s: Slot)
    requires i < |slots|
    ensures SlotAttempts(slots[i := s]) ==
            SlotAttempts(slots) - (if slots[i].InFlight? then slots[i].left else 0) + (if s.InFlight? then s.left else 0)
  {
    var n := |slots| - 1;
    if i == n {
      assert slots[i := s][..n] == slots[..n];
    } else {
      SlotAttemptsUpdate(slots[..n], i, s);
      assert slots[i := s][..n] == slots[..n][i := s];
    }
  }

  lemma {:induction false} SlotAttemptsOfOpen(n: nat, left: nat)
    ensures SlotAttempts(seq(n, _ => InFlight(left))) == left * n
  {
    if n > 0 {
      SlotAttemptsOfOpen(n - 1, left);
      assert seq(n, _ => InFlight(left))[..n - 1] == seq(n - 1, _ => InFlight(left));
    }
  }

  lemma OpenAttempts(job: Job, stage: nat, done: seq<PhaseResult>, failing: bool)
    requires RunnableJob(job) && stage <= Stages(job)
    ensures AttemptsLeft(job, Open(job, stage, done, failing)) <= Ahead(job, stage) + job.MaxAttempts()
  {
    var n, max := |Group(job, stage, done)|, job.MaxAttempts();
    SlotAttemptsOfOpen(n, max);
    GroupWithinCap(job, stage, done);
    assert max * n <= max * Cap(job, stage);
    if stage == Stages(job) {
      GroupsEnd(job, done);
    }
  }

  predicate Decreases(job: Job, c: Child, c': Child, cost: nat)
    requires RunnableJob(job)
  {
    && AttemptsLeft(job, c') + cost <= AttemptsLeft(job, c)
    && Weight(job, c') < Weight(job, c)
  }

  lemma ReplyDecreases(job: Job, c: Child, i: nat, r: PhaseResult)
    requires RunnableJob(job) && c.Measuring? && i < |c.slots| && c.slots[i].InFlight? && c.slots[i].left >= 1
    ensures Decreases(job, c, c.(slots := c.slots[i := Settled(r)]), 1)
  {
    SlotAttemptsUpdate(c.slots, i, Settled(r));
  }

  lemma RetryDecreases(job: Job, c: Child, i: nat)
    requires RunnableJob(job) && c.Measuring? && i < |c.slots| && c.slots[i].InFlight? && c.slots[i].left > 1
    ensures Decreases(job, c, c.(slots := c.slots[i := InFlight(c.slots[i].left - 1)]), 1)
  {
    SlotAttemptsUpdate(c.slots, i, InFlight(c.slots[i].left - 1));
  }

  lemma RaiseDecreases(job: Job, c: Child, i: nat)
    requires RunnableJob(job) && c.Measuring? && i < |c.slots| && c.slots[i].InFlight? && c.slots[i].left >= 1
    requires c.stage < Stages(job)
    ensures Decreases(job, c, Raise(job, c), 1)
  {
    var none := PhaseResult(0, "", Skipped, Json(""), [], 0, 0);
    SlotAttemptsUpdate(c.slots, i, Settled(none));
    if Guarded(job, c.stage) {
      OpenAttempts(job, c.stage + 1, c.done, true);
    }
  }

  lemma FailDecreases(job: Job, o: Oracle, c: Child, i: nat, retryable: bool)
    requires RunnableJob(job) && OnTrack(job, o, c) && Take(job, o, c, Fail(i, retryable)).Some?
    ensures Decreases(job, c, Take(job, o, c, Fail(i, retryable)).value, 1)
  {
    if retryable && c.slots[i].left > 1 {
      RetryDecreases(job, c, i);
    } else {
      GroupsEnd(job, c.done);
      RaiseDecreases(job, c, i);
    }
  }

  lemma AdvanceDecreases(job: Job, c: Child)
    requires RunnableJob(job) && c.Measuring? && c.stage < Stages(job) && AllSettled(c.slots)
    ensures Decreases(job, c, Open(job, c.stage + 1, c.done + SlotResults(c.slots), c.failing), 0)
  {
    OpenAttempts(job, c.stage + 1, c.done + SlotResults(c.slots), c.failing);
  }

  /** Each step makes progress, and each attempt uses one up. */
  lemma TakeDecreases(job: Job, o: Oracle, c: Child, step: Step)
    requires RunnableJob(job) && OnTrack(job, o, c) && Take(job, o, c, step).Some?
    ensures Decreases(job, c, Take(job, o, c, step).value, AttemptCost(step))
  {
    match step
    case Reply(i) => ReplyDecreases(job, c, i, o(Group(job, c.stage, c.done)[i]).result);
    case Fail(i, retryable) => FailDecreases(job, o, c, i, retryable);
    case Advance => AdvanceDecreases(job, c);
    case Finish =>
  }

  lemma {:induction false} InFlightUpdate(slots: seq<Slot>, i: nat, s: Slot)
    requires i < |slots|
    ensures InFlightSlots(slots[i := s]) ==
            InFlightSlots(slots) - (if slots[i].InFlight? then 1 else 0) + (if s.InFlight? then 1 else 0)
  {
    var n := |slots| - 1;
    if i == n {
      assert slots[i := s][..n] == slots[..n];
    } else {
      InFlightUpdate(slots[..n], i, s);
      assert slots[i := s][..n] == slots[..n][i := s];
    }
  }

  /** Each attempt under way is one of those its slot has left. */
  lemma {:induction false} InFlightWithin(slots: seq<Slot>)
    requires forall s | s in slots && s.InFlight? :: s.left >= 1
    ensures InFlightSlots(slots) <= SlotAttempts(slots)
  {
    if slots != [] {
      var n := |slots| - 1;
      assert slots[n] in slots && forall s | s in slots[..n] :: s in slots;
      InFlightWithin(slots[..n]);
    }
  }

  lemma UnderWayWithin(job: Job, o: Oracle, c: Child)
    requires RunnableJob(job) && OnTrack(job, o, c)
    ensures UnderWay(c) <= AttemptsLeft(job, c)
  {
    if c.Measuring? {
      forall s | s in c.slots && s.InFlight? ensures s.left >= 1 {
        var i :| 0 <= i < |c.slots| && c.slots[i] == s;
      }
      InFlightWithin(c.slots);
    }
  }

  /** A step that stays in its stage starts at most a retry. */
  lemma SlotStepStarts(job: Job, c: Child, i: nat, s: Slot)
    requires RunnableJob(job) && c.Measuring? && i < |c.slots| && c.slots[i].InFlight? && c.slots[i].left >= 1
    requires s.InFlight? ==> 1 <= s.left == c.slots[i].left - 1
    ensures var next := c.(slots := c.slots[i := s]);
            AttemptsLeft(job, next) - UnderWay(next) + (if s.InFlight? then 1 else 0) <=
            AttemptsLeft(job, c) - UnderWay(c)
  {
    SlotAttemptsUpdate(c.slots, i, s);
    InFlightUpdate(c.slots, i, s);
  }

  /** A step that leaves the stage starts no more than what lay ahead. */
  lemma MoveStarts(job: Job, o: Oracle, c: Child, next: Child)
    requires RunnableJob(job) && OnTrack(job, o, c) && c.Measuring?
    requires AttemptsLeft(job, next) <= Ahead(job, c.stage + 1) + job.MaxAttempts()
    ensures AttemptsLeft(job, next) - UnderWay(next) + UnderWay(next) <= AttemptsLeft(job, c) - UnderWay(c)
  {
    forall s | s in c.slots && s.InFlight? ensures s.left >= 1 {
      var i :| 0 <= i < |c.slots| && c.slots[i] == s;
    }
    InFlightWithin(c.slots);
  }

  lemma FailStarts(job: Job, o: Oracle, c: Child, i: nat, retryable: bool)
    requires RunnableJob(job) && OnTrack(job, o, c) && Take(job, o, c, Fail(i, retryable)).Some?
    ensures var next := Take(job, o, c, Fail(i, retryable)).value;
            AttemptsLeft(job, next) - UnderWay(next) + Starts(c, Fail(i, retryable), next) <=
            AttemptsLeft(job, c) - UnderWay(c)
  {
    var next := Take(job, o, c, Fail(i, retryable)).value;
    if retryable && c.slots[i].left > 1 {
      SlotStepStarts(job, c, i, next.slots[i]);
    } else {
      GroupsEnd(job, c.done);
      if Guarded(job, c.stage) {
        OpenAttempts(job, c.stage + 1, c.done, true);
      }
      MoveStarts(job, o, c, next);
    }
  }

  lemma AdvanceStarts(job: Job, o: Oracle, c: Child)
    requires RunnableJob(job) && OnTrack(job, o, c) && Take(job, o, c, Advance).Some?
    ensures var next := Take(job, o, c, Advance).value;
            AttemptsLeft(job, next) - UnderWay(next) + Starts(c, Advance, next) <= AttemptsLeft(job, c) - UnderWay(c)
  {
    OpenAttempts(job, c.stage + 1, c.done + SlotResults(c.slots), c.failing);
    MoveStarts(job, o, c, Take(job, o, c, Advance).value);
  }

  /** Each step draws the attempts it starts from the budget: those that a sibling's
      exception abandons are counted when they start. */
  lemma TakeStarts(job: Job, o: Oracle, c: Child, step: Step)
    requires RunnableJob(job) && OnTrack(job, o, c) && Take(job, o, c, step).Some?
    ensures var next := Take(job, o, c, step).value;
            AttemptsLeft(job, next) - UnderWay(next) + Starts(c, step, next) <= AttemptsLeft(job, c) - UnderWay(c)
  {
    var next := Take(job, o, c, step).value;
    match step
    case Reply(i) => SlotStepStarts(job, c, i, next.slots[i]);
    case Fail(i, retryable) => FailStarts(job, o, c, i, retryable);
    case Advance => AdvanceStarts(job, o, c);
    case Finish => MoveStarts(job, o, c, next);
  }

  /** A child that still measures can always take a step. */
  lemma CanStep(job: Job, o: Oracle, c: Child) returns (step: Step)
    requires RunnableJob(job) && OnTrack(job, o, c) && c.Measuring?
    ensures Take(job, o, c, step).Some?
  {
    if i :| 0 <= i < |c.slots| && c.slots[i].InFlight? {
      step := if o(Group(job, c.stage, c.done)[i]).Returned? then Reply(i) else Fail(i, false);
    } else {
      step := if c.stage == Stages(job) then Finish else Advance;
    }
  }

  /** A child whose activities all return and which persists its phases can always
      step on to measuring or saving, never out of the workflow. */
  lemma MeasuringSteps(job: Job, o: Oracle, c: Child) returns (step: Step)
    requires RunnableJob(job) && job.MaxAttempts() >= 1 && job.BatchId().Some?
    requires OnTrack(job, o, c) && c.Measuring? && Results(job, o).Some?
    ensures Take(job, o, c, step).Some?
    ensures Take(job, o, c, step).value.Measuring? || Take(job, o, c, step).value.Saving?
    ensures Take(job, o, c, step).value.Saving? ==> Take(job, o, c, step).value.left == job.MaxAttempts()
    ensures Weight(job, Take(job, o, c, step).value) < Weight(job, c)
  {
    step := CanStep(job, o, c);
    TakeStaysOnTrack(job, o, c, step);
    TakeDecreases(job, o, c, step);
    NeverCompletes(job, o, c, step);
  }

  lemma NeverCompletes(job: Job, o: Oracle, c: Child, step: Step)
    requires RunnableJob(job) && Take(job, o, c, step).Some? && job.BatchId().Some?
    ensures !Take(job, o, c, step).value.Complete? && !Take(job, o, c, step).value.Unsaved?
  {
  }

  function Caps(job: Job, stage: nat): nat
    requires RunnableJob(job)
    decreases Stages(job) - stage
  {
    if stage >= Stages(job) then 0 else Cap(job, stage) + Caps(job, stage + 1)
  }

  lemma {:induction false} AheadIsCaps(job: Job, stage: nat)
    requires RunnableJob(job)
    ensures Ahead(job, stage) == job.MaxAttempts() * Caps(job, stage)
    decreases Stages(job) - stage
  {
    if stage < Stages(job) {
      AheadIsCaps(job, stage + 1);
      Distribute(job.MaxAttempts(), Cap(job, stage), Caps(job, stage + 1));
    }
  }

  /** The bound for one machine: max attempts times two setup activities, seven
      probes, three stress activities, the fio profiles and the persistence. */
  lemma MachineAttempts(p: MachinePlan)
    requires Runnable(p)
    ensures var profiles := if p.fioProfiles.Some? then |p.fioProfiles.value| else 0;
            AttemptsLeft(MachineJob(p), Open(MachineJob(p), 0, [], false)) <=
            p.maxAttempts * (2 + 7 + 3 + profiles + 1)
  {
    var job := MachineJob(p);
    var profiles := if p.fioProfiles.Some? then |p.fioProfiles.value| else 0;
    OpenAttempts(job, 0, [], false);
    AheadIsCaps(job, 0);
    MachineCaps(p);
    MulMonotone(p.maxAttempts, Caps(job, 0), 12 + profiles);
  }

  lemma MachineCaps(p: MachinePlan)
    requires Runnable(p)
    ensures Caps(MachineJob(p), 0) <= 2 + 7 + 3 + if p.fioProfiles.Some? then |p.fioProfiles.value| else 0
  {
    var job := MachineJob(p);
    assert Caps(job, 4) == 0;
    assert Caps(job, 2) == Cap(job, 2) + Caps(job, 3);
  }

  lemma Distribute(a: nat, b: nat, c: nat)
    ensures a * (b + c) == a * b + a * c
  {
  }

  lemma MulMonotone(a: nat, b: nat, c: nat)
    requires b <= c
    ensures a * b <= a * c && a * (c + 1) == a * c + a
  {
  }
}
