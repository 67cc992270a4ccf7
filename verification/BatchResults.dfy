/** The guarantees of a batch, over every run. */
module BatchResults {

  import opened Wrappers
  import opened Model
  import opened Store
  import opened Delivery
  import opened Jobs
  import opened ChildRun
  import opened Batch
  import opened BatchSystem
  import opened BatchSafety

  // ---- Durability ----------------------------------------------------------------

  /** Every result in `r` is in the store, row for row. */
  ghost predicate AllStored(w: World, db: Db, r: BatchResult) {
    && (forall m | m in r.machineResults :: Present(db, MachineSink(w.plan.batchId, m)))
    && (r.mesh.Some? ==> Present(db, PhaseSink(w.plan.batchId, "mesh", r.mesh.value.phases)))
    && (r.encap.Some? ==> Present(db, PhaseSink(w.plan.batchId, "encap", r.encap.value.phases)))
  }

  lemma MachinesAreStored(w: World, s: Sys, m: MachineResult)
    requires Sized(w) && Planned(w.plan) && StoredInv(w, s) && |s.children| == |w.Jobs()|
    requires m in Somes(MachineOutcomes(w, s.children))
    ensures Present(DbOf(w, s), MachineSink(w.plan.batchId, m))
  {
    var outcomes := MachineOutcomes(w, s.children);
    SomesMember(outcomes, m);
    var i :| 0 <= i < |outcomes| && outcomes[i] == Some(m);
    assert SinkOf(w, i, s.children[i].phases) == MachineSink(w.plan.batchId, m);
  }

  lemma DecidedIsStored(w: World, s: Sys)
    requires Sized(w) && Planned(w.plan) && StoredInv(w, s) && |s.children| == |w.Jobs()|
    ensures AllStored(w, DbOf(w, s), Decided(w, s.children))
  {
    var cs, n := s.children, |w.plan.machinePlans|;
    forall m | m in Somes(MachineOutcomes(w, cs)) ensures Present(DbOf(w, s), MachineSink(w.plan.batchId, m)) {
      MachinesAreStored(w, s, m);
    }
    if w.plan.meshPlan.Some? {
      assert w.Jobs()[n] == MeshJob(w.plan.meshPlan.value);
    }
    if w.plan.encapPlan.Some? {
      assert w.Jobs()[|cs| - 1] == EncapJob(w.plan.encapPlan.value);
    }
  }

  /** In every run, from the moment the batch row is `passed` or `failed`: the
      verdict is final and equal to that status, and every result the batch
      reports is already stored. */
  lemma Durability(w: World, s: Sys)
    requires Ready(w) && Reachable(w, s)
    ensures var db := DbOf(w, s);
            w.plan.batchId in db.batches && db.batches[w.plan.batchId].status != Running ==>
              && HasResult(s.root)
              && |s.children| == |w.Jobs()|
              && s.root.result == Decided(w, s.children)
              && db.batches[w.plan.batchId].status == s.root.result.status
              && AllStored(w, db, s.root.result)
  {
    ReachableInv(w, s);
    if HasResult(s.root) {
      DecidedIsStored(w, s);
    }
  }

  /** In every run a child that returned has each of its phases in the store as it was
      reported: a failed one as failed, under this batch. */
  lemma ReportedIsRecorded(w: World, s: Sys, i: nat, p: PhaseResult)
    requires Ready(w) && Reachable(w, s) && i < |s.children| == |w.Jobs()| && s.children[i].Complete?
    requires p in s.children[i].phases
    ensures Recorded(DbOf(w, s), SinkOf(w, i, s.children[i].phases), p)
    ensures DbOf(w, s).phases[p.id].status == p.status && DbOf(w, s).phases[p.id].batchId == w.plan.batchId
  {
    ReachableInv(w, s);
    PresentIsRecorded(DbOf(w, s), SinkOf(w, i, s.children[i].phases), p);
  }

  /** So has its machine a row: its own id, name and host under this batch, closed
      with the verdict on its phases at its second clock reading. */
  lemma ReportedMachineIsRecorded(w: World, s: Sys, i: nat)
    requires Ready(w) && Reachable(w, s) && i < |s.children| == |w.Jobs()| && s.children[i].Complete?
    requires i < |w.plan.machinePlans|
    ensures w.machineIds[i] in DbOf(w, s).machines
    ensures var row, m := DbOf(w, s).machines[w.machineIds[i]], w.plan.machinePlans[i].machine;
            && row.batchId == w.plan.batchId && row.name == m.name && row.host == m.host
            && row.status == Overall(s.children[i].phases) && row.finishedAt == Some(w.clocks[i].1)
    ensures MachineOutcomes(w, s.children)[i].Some? && MachineOutcomes(w, s.children)[i].value.startedAt == w.clocks[i].0
  {
    ReachableInv(w, s);
    var phases := s.children[i].phases;
    PresentIsRecorded(DbOf(w, s), SinkOf(w, i, phases), PhaseResult(0, "", Skipped, Json(""), [], 0, 0));
  }

  /** A batch that returns has closed its row with the status it returns. */
  lemma ReturnsClosed(w: World, s: Sys)
    requires Ready(w) && Reachable(w, s) && s.root.Finished?
    ensures var db := DbOf(w, s);
            && w.plan.batchId in db.batches
            && db.batches[w.plan.batchId].status == s.root.result.status
            && AllStored(w, db, s.root.result)
  {
    ReachableInv(w, s);
    DecidedIsStored(w, s);
  }

  /** Child `i` is waiting for its persistence activity. */
  predicate Waits(w: World, s: Sys, i: nat) {
    i < |s.children| == |w.Jobs()| && s.children[i].Saving?
  }

  /** An attempt to store `p` can still reach the store: its child is waiting, or a
      timed-out attempt is overdue, perhaps after the batch is over. */
  ghost predicate Pending(w: World, s: Sys, p: Sink)
    requires Sized(w)
  {
    || Event.Child(p) in s.late
    || exists i: nat :: Waits(w, s, i) && p == SinkOf(w, i, s.children[i].phases)
  }

  /** A child's transaction, however late, finds the batch row; it never aborts on a
      missing parent, only on rows it has itself written before. */
  lemma SavesNeverOrphaned(w: World, s: Sys, p: Sink)
    requires Ready(w) && Reachable(w, s) && Pending(w, s, p)
    ensures var db := DbOf(w, s);
            && w.plan.batchId in db.batches
            && (Persist(db, p).Failure? <==> Present(db, p) && p.Phases() != [])
            && (Persist(db, p).Failure? ==> Persist(db, p).error == PrimaryKey)
  {
    ReachableInv(w, s);
    if Event.Child(p) !in s.late {
      var i: nat :| Waits(w, s, i) && p == SinkOf(w, i, s.children[i].phases);
      SavingIsLicit(w, s, i);
    }
    LicitSave(w, s, p);
  }

  lemma LicitSave(w: World, s: Sys, p: Sink)
    requires Ready(w) && RowInv(w, s) && EventsInv(w, s) && Licit(w, s.root, Event.Child(p))
    ensures var db := DbOf(w, s);
            && p in Payloads(w)
            && w.plan.batchId in db.batches
            && (Persist(db, p).Failure? <==> Present(db, p) && p.Phases() != [])
            && (Persist(db, p).Failure? ==> Persist(db, p).error == PrimaryKey)
  {
    SaveOutcome(w, s.history, p);
    ExactlyOnce(w.db0, AllPayloads(w), s.history);
    if Present(DbOf(w, s), p) {
      PersistRepeated(DbOf(w, s), p);
    }
  }

  // ---- Integrity ---------------------------------------------------------------------

  lemma DeliverLeavesNoneRunning(db: Db, a: Attempt)
    requires Valid(db) && NoneRunning(db)
    requires a.event.Child? ==> WellFormed(a.event.sink)
    ensures NoneRunning(Deliver(db, a))
  {
    if a.event.Child? {
      PersistLeavesNoneRunning(db, a.event.sink);
    } else {
      BatchEventKeeps(db, a.event);
    }
  }

  lemma {:induction false} NoneRunningReplay(db: Db, u: set<Sink>, h: seq<Attempt>)
    requires Universe(db, u) && Within(h, u) && NoneRunning(db)
    ensures Valid(Replay(db, h)) && NoneRunning(Replay(db, h))
  {
    ExactlyOnce(db, u, h);
    if h != [] {
      var earlier, a := h[..|h| - 1], h[|h| - 1];
      NoneRunningReplay(db, u, earlier);
      DeliverLeavesNoneRunning(Replay(db, earlier), a);
    }
  }

  /** Every state of every interleaving satisfies the schema's constraints, and no
      machine row is ever seen `running`. */
  lemma Integrity(w: World, s: Sys)
    requires Ready(w) && NoneRunning(w.db0) && Reachable(w, s)
    ensures Valid(DbOf(w, s)) && NoneRunning(DbOf(w, s))
  {
    ReachableInv(w, s);
    NoneRunningReplay(w.db0, AllPayloads(w), s.history);
  }

  // ---- The verdict --------------------------------------------------------------------

  /** SMART phases come from the SMART probe. */
  ghost predicate ProbedActivities(w: World) {
    forall o, a | o in w.oracles && o(a).Returned? :: Probed(o(a).result)
  }

  lemma MachinesAssembled(w: World, cs: seq<Child>)
    requires Sized(w) && Planned(w.plan) && ProbedActivities(w) && |cs| == |w.Jobs()|
    requires forall i | 0 <= i < |cs| :: ChildInv(w, i, cs[i])
    ensures forall m | m in Somes(MachineOutcomes(w, cs)) :: Assembled(m)
  {
    var outcomes := MachineOutcomes(w, cs);
    forall m | m in Somes(outcomes) ensures Assembled(m) {
      SomesMember(outcomes, m);
      var i :| 0 <= i < |outcomes| && outcomes[i] == Some(m);
      assert w.Jobs()[i] in w.Jobs();
      ResultsAreHonest(w, i, cs[i].phases);
    }
  }

  /** The children that returned all passed every phase. */
  predicate ReturnedPassed(cs: seq<Child>) {
    forall i | 0 <= i < |cs| && cs[i].Complete? :: AllPassed(cs[i].phases)
  }

  lemma DecidedPassed(w: World, cs: seq<Child>)
    requires Sized(w) && |cs| == |w.Jobs()|
    requires forall m | m in Somes(MachineOutcomes(w, cs)) :: Assembled(m)
    ensures Decided(w, cs).status == Passed <==> ReturnedPassed(cs)
  {
    AutoFail(w.plan, Somes(MachineOutcomes(w, cs)));
    MachinesPassed(w, cs);
    var n := |w.plan.machinePlans|;
    assert |cs| == n + (if w.plan.meshPlan.Some? then 1 else 0) + (if w.plan.encapPlan.Some? then 1 else 0);
    assert Flatten(MeshOutcome(w, cs)).Some? ==> cs[n].Complete?;
  }

  /** A returned batch passed exactly when every phase of every child that
      returned passed. Children that raised have no say, and neither have the
      two auto-fail flags. */
  lemma PassedMeans(w: World, s: Sys)
    requires Ready(w) && ProbedActivities(w) && Reachable(w, s) && HasResult(s.root)
    ensures s.root.result.status == Passed <==> ReturnedPassed(s.children)
  {
    ReachableInv(w, s);
    MachinesAssembled(w, s.children);
    DecidedPassed(w, s.children);
  }

  /** A batch row that says `passed` is borne out by the phase rows: those of every
      child that returned say `passed` too. */
  lemma PassedRowIsBorneOut(w: World, s: Sys, i: nat, p: PhaseResult)
    requires Ready(w) && ProbedActivities(w) && Reachable(w, s)
    requires w.plan.batchId in DbOf(w, s).batches && DbOf(w, s).batches[w.plan.batchId].status == Passed
    requires i < |s.children| && s.children[i].Complete? && p in s.children[i].phases
    ensures p.id in DbOf(w, s).phases && DbOf(w, s).phases[p.id].status == Passed
  {
    Durability(w, s);
    PassedMeans(w, s);
    ReportedIsRecorded(w, s, i, p);
    assert AllPassed(s.children[i].phases);
  }

  lemma MachinesPassed(w: World, cs: seq<Child>)
    requires Sized(w) && |cs| == |w.Jobs()|
    ensures var ms := Somes(MachineOutcomes(w, cs));
            (exists m | m in ms :: exists p | p in m.phases :: p.status != Passed) <==>
            exists i | 0 <= i < |w.plan.machinePlans| :: cs[i].Complete? && !AllPassed(cs[i].phases)
  {
    var outcomes := MachineOutcomes(w, cs);
    var ms := Somes(outcomes);
    if m, p :| m in ms && p in m.phases && p.status != Passed {
      SomesMember(outcomes, m);
      var i :| 0 <= i < |outcomes| && outcomes[i] == Some(m);
      assert !AllPassed(cs[i].phases);
    }
    if i :| 0 <= i < |w.plan.machinePlans| && cs[i].Complete? && !AllPassed(cs[i].phases) {
      var m := outcomes[i].value;
      assert outcomes[i] in outcomes;
      SomesMember(outcomes, m);
      var p :| p in m.phases && p.status != Passed;
    }
  }

  lemma ResultsAreHonest(w: World, i: nat, phases: seq<PhaseResult>)
    requires Sized(w) && Planned(w.plan) && ProbedActivities(w)
    requires i < |w.plan.machinePlans| && w.Jobs()[i] in w.Jobs()
    requires Results(w.Jobs()[i], w.oracles[i]) == Some(phases)
    ensures forall p | p in phases :: Honest(p)
  {
    var o := w.oracles[i];
    MachineLayout(w.plan.machinePlans[i], o);
    var all := Concat(MachineGroups(w.plan.machinePlans[i], o));
    forall p | p in phases ensures Honest(p) {
      var k :| 0 <= k < |phases| && phases[k] == p;
      assert all[k] in all;
      assert o in w.oracles && o(all[k]).Returned?;
      ProbedIsHonest(p);
    }
  }

  lemma NoneCompletePasses(w: World, cs: seq<Child>)
    requires Sized(w) && |cs| == |w.Jobs()|
    requires forall i | 0 <= i < |cs| :: !cs[i].Complete?
    ensures Decided(w, cs) == BatchResult(Passed, [], None, None)
  {
    var outcomes := MachineOutcomes(w, cs);
    SomesOfNones(outcomes);
  }

  lemma {:induction false} SomesOfNones<T>(xs: seq<Option<T>>)
    requires forall i | 0 <= i < |xs| :: xs[i] == None
    ensures Somes(xs) == []
  {
    if xs != [] {
      SomesOfNones(xs[..|xs| - 1]);
    }
  }

  // ---- Termination ----------------------------------------------------------------------

  function ChildrenWeight(w: World, cs: seq<Child>): nat
    requires Planned(w.plan) && |cs| <= |w.Jobs()|
  {
    if cs == [] then 0
    else
      assert w.Jobs()[|cs| - 1] in w.Jobs();
      ChildrenWeight(w, cs[..|cs| - 1]) + Weight(w.Jobs()[|cs| - 1], cs[|cs| - 1])
  }

  function RootWeight(w: World, root: Root): nat
    requires Planned(w.plan)
  {
    match root
    case Opening(left) => 2 * left + 2 * w.plan.maxAttempts + 1 + ChildrenWeight(w, Started(w))
    case Gathering => 2 * w.plan.maxAttempts + 1
    case Closing(_, left) => 2 * left
    case _ => 0
  }

  /** A measure every step of the batch decreases. */
  function SysWeight(w: World, s: Sys): nat
    requires Planned(w.plan) && |s.children| <= |w.Jobs()|
  {
    RootWeight(w, s.root) + ChildrenWeight(w, s.children) + |s.late|
  }

  lemma {:induction false} ChildrenWeightUpdate(w: World, cs: seq<Child>, i: nat, c: Child)
    requires Planned(w.plan) && i < |cs| <= |w.Jobs()| && w.Jobs()[i] in w.Jobs()
    ensures ChildrenWeight(w, cs[i := c]) ==
            ChildrenWeight(w, cs) - Weight(w.Jobs()[i], cs[i]) + Weight(w.Jobs()[i], c)
  {
    var n := |cs| - 1;
    if i == n {
      assert cs[i := c][..n] == cs[..n];
    } else {
      ChildrenWeightUpdate(w, cs[..n], i, c);
      assert cs[i := c][..n] == cs[..n][i := c];
    }
  }

  lemma ChildStepDecreases(w: World, s: Sys, i: nat, step: Step)
    requires Ready(w) && ControlInv(w, s) && ChildStepped(w, s, i, step).Some?
    ensures SysWeight(w, ChildStepped(w, s, i, step).value) < SysWeight(w, s)
  {
    var job := w.Jobs()[i];
    assert job in w.Jobs();
    TakeDecreases(job, w.oracles[i], s.children[i], step);
    ChildrenWeightUpdate(w, s.children, i, Take(job, w.oracles[i], s.children[i], step).value);
  }

  lemma SaveTryDecreases(w: World, s: Sys, i: nat, r: Reply)
    requires Ready(w) && ControlInv(w, s) && SaveTried(w, s, i, r).Some?
    ensures SysWeight(w, SaveTried(w, s, i, r).value) < SysWeight(w, s)
  {
    assert w.Jobs()[i] in w.Jobs();
    var c, s' := s.children[i], SaveTried(w, s, i, r).value;
    ChildrenWeightUpdate(w, s.children, i, s'.children[i]);
    assert Weight(w.Jobs()[i], s'.children[i]) + 2 <= Weight(w.Jobs()[i], c);
  }

  lemma OpenTryDecreases(w: World, s: Sys, r: Reply)
    requires Ready(w) && ControlInv(w, s) && OpenTried(w, s, r).Some?
    ensures SysWeight(w, OpenTried(w, s, r).value) < SysWeight(w, s)
  {
    assert ChildrenWeight(w, []) == 0;
  }

  lemma CloseTryDecreases(w: World, s: Sys, r: Reply, at: Instant)
    requires Ready(w) && ControlInv(w, s) && CloseTried(w, s, r, at).Some?
    ensures SysWeight(w, CloseTried(w, s, r, at).value) < SysWeight(w, s)
  {
    var s' := CloseTried(w, s, r, at).value;
    assert s'.children == s.children && |s'.late| <= |s.late| + 1;
    assert RootWeight(w, s'.root) + 2 <= RootWeight(w, s.root);
  }

  lemma NextDecreases(w: World, s: Sys, l: Label)
    requires Ready(w) && ControlInv(w, s) && Next(w, s, l).Some? && !l.Other?
    requires |Next(w, s, l).value.children| <= |w.Jobs()|
    ensures SysWeight(w, Next(w, s, l).value) < SysWeight(w, s)
  {
    match l
    case ChildStep(i, step) => ChildStepDecreases(w, s, i, step);
    case SaveTry(i, r) => SaveTryDecreases(w, s, i, r);
    case OpenTry(r) => OpenTryDecreases(w, s, r);
    case CloseTry(r, at) => CloseTryDecreases(w, s, r, at);
    case GatherAll =>
    case Arrive(e) =>
  }

  /** The steps of a run that are the batch's own. */
  function OwnSteps(labels: seq<Label>): nat {
    if labels == [] then 0
    else OwnSteps(labels[..|labels| - 1]) + if labels[|labels| - 1].Other? then 0 else 1
  }

  lemma StepWithin(w: World, s: Sys, l: Label)
    requires Ready(w) && Inv(w, s) && Next(w, s, l).Some?
    ensures |Next(w, s, l).value.children| <= |w.Jobs()|
    ensures SysWeight(w, Next(w, s, l).value) + (if l.Other? then 0 else 1) <= SysWeight(w, s)
  {
    NextKeeps(w, s, l);
    if !l.Other? {
      NextDecreases(w, s, l);
    }
  }

  /** Every run is bounded: no schedule, failure pattern, late arrival or traffic of
      other batches lets a batch take more steps than its initial weight. */
  lemma {:induction false} Termination(w: World, labels: seq<Label>)
    requires Ready(w) && Reach(w, labels).Some?
    ensures |Reach(w, labels).value.children| <= |w.Jobs()|
    ensures OwnSteps(labels) + SysWeight(w, Reach(w, labels).value) <= SysWeight(w, Begin(w))
  {
    if labels != [] {
      var before, l := labels[..|labels| - 1], labels[|labels| - 1];
      Termination(w, before);
      ReachKeeps(w, before);
      StepWithin(w, Reach(w, before).value, l);
    }
  }

  /** The batch workflow has returned or raised and nothing is overdue. */
  predicate Quiescent(s: Sys) {
    s.late == multiset{} && (s.root.Finished? || s.root.OpenFailed? || s.root.CloseFailed?)
  }

  lemma ChildProgress(w: World, s: Sys, i: nat) returns (l: Label)
    requires Ready(w) && ControlInv(w, s) && i < |s.children| == |w.Jobs()| && !Terminal(s.children[i])
    ensures Next(w, s, l).Some? && (l.ChildStep? || l.SaveTry?)
  {
    assert w.Jobs()[i] in w.Jobs();
    if s.children[i].Saving? {
      l := SaveTry(i, TimedOut);
    } else {
      var step := CanStep(w.Jobs()[i], w.oracles[i], s.children[i]);
      l := ChildStep(i, step);
    }
  }

  lemma GatheringProgress(w: World, s: Sys) returns (l: Label)
    requires Ready(w) && ControlInv(w, s) && s.root.Gathering?
    ensures Next(w, s, l).Some? && !l.Other?
  {
    if AllTerminal(s) {
      l := GatherAll;
    } else {
      var i :| 0 <= i < |s.children| && !Terminal(s.children[i]);
      l := ChildProgress(w, s, i);
    }
  }

  lemma RootProgress(w: World, s: Sys) returns (l: Label)
    requires Ready(w) && ControlInv(w, s) && (s.root.Opening? || s.root.Closing? || s.late != multiset{})
    ensures Next(w, s, l).Some? && !l.Other?
  {
    if s.root.Opening? {
      l := OpenTry(TimedOut);
    } else if s.root.Closing? {
      l := CloseTry(TimedOut, 0);
    } else {
      var e :| e in s.late;
      l := Arrive(e);
    }
  }

  /** No run gets stuck before it is over. */
  lemma Progress(w: World, s: Sys) returns (l: Label)
    requires Ready(w) && Reachable(w, s) && !Quiescent(s)
    ensures Next(w, s, l).Some? && !l.Other?
  {
    ReachableInv(w, s);
    if s.root.Gathering? {
      l := GatheringProgress(w, s);
    } else {
      l := RootProgress(w, s);
    }
  }

  /** In every state of a run other batches may make any attempt of theirs, and only
      the store's history records it. */
  lemma OthersMayAct(w: World, labels: seq<Label>, a: Attempt)
    requires Ready(w) && Reach(w, labels).Some?
    ensures var s, next := Reach(w, labels).value, Reach(w, labels + [Other(a)]);
            next == if Foreign(w, a.event) then Some(s.(history := s.history + [a])) else None
  {
    assert (labels + [Other(a)])[..|labels|] == labels;
  }

  // ---- Attempts ------------------------------------------------------------------------

  /** The attempts of child `i` that a step starts. */
  function StartsIn(s: Sys, l: Label, next: Sys, i: nat): nat {
    if i >= |next.children| then 0
    else
      match l
      case OpenTry(_) => if next.root.Gathering? then UnderWay(next.children[i]) else 0
      case ChildStep(j, step) => if i == j && i < |s.children| then Starts(s.children[i], step, next.children[i]) else 0
      case SaveTry(j, _) => if i == j then UnderWay(next.children[i]) else 0
      case _ => 0
  }

  /** The activity attempts a run has started for child `i`, persistence included. */
  function AttemptsMade(w: World, labels: seq<Label>, i: nat): nat
    requires Sized(w) && Planned(w.plan) && Reach(w, labels).Some?
  {
    if labels == [] then 0
    else
      var before := labels[..|labels| - 1];
      AttemptsMade(w, before, i) +
      StartsIn(Reach(w, before).value, labels[|labels| - 1], Reach(w, labels).value, i)
  }

  /** What is left of child `i`'s budget for attempts not yet started. */
  function Unstarted(w: World, s: Sys, i: nat): int
    requires Planned(w.plan) && i < |w.Jobs()| && w.Jobs()[i] in w.Jobs()
  {
    if i < |s.children| then AttemptsLeft(w.Jobs()[i], s.children[i]) - UnderWay(s.children[i])
    else AttemptsLeft(w.Jobs()[i], Open(w.Jobs()[i], 0, [], false))
  }

  lemma ChildStepStarts(w: World, s: Sys, j: nat, step: Step, i: nat)
    requires Ready(w) && ControlInv(w, s) && i < |w.Jobs()| && w.Jobs()[i] in w.Jobs()
    requires ChildStepped(w, s, j, step).Some?
    ensures var next := ChildStepped(w, s, j, step).value;
            Unstarted(w, next, i) + StartsIn(s, ChildStep(j, step), next, i) <= Unstarted(w, s, i)
  {
    if j == i {
      TakeStarts(w.Jobs()[i], w.oracles[i], s.children[i], step);
    }
  }

  lemma SaveTryStarts(w: World, s: Sys, j: nat, r: Reply, i: nat)
    requires Ready(w) && ControlInv(w, s) && i < |w.Jobs()| && w.Jobs()[i] in w.Jobs()
    requires SaveTried(w, s, j, r).Some?
    ensures var next := SaveTried(w, s, j, r).value;
            Unstarted(w, next, i) + StartsIn(s, SaveTry(j, r), next, i) <= Unstarted(w, s, i)
  {
  }

  lemma OpenTryStarts(w: World, s: Sys, r: Reply, i: nat)
    requires Ready(w) && ControlInv(w, s) && i < |w.Jobs()| && w.Jobs()[i] in w.Jobs()
    requires OpenTried(w, s, r).Some?
    ensures var next := OpenTried(w, s, r).value;
            Unstarted(w, next, i) + StartsIn(s, OpenTry(r), next, i) <= Unstarted(w, s, i)
  {
  }

  lemma NextStarts(w: World, s: Sys, l: Label, i: nat)
    requires Ready(w) && ControlInv(w, s) && Next(w, s, l).Some? && i < |w.Jobs()| && w.Jobs()[i] in w.Jobs()
    ensures Unstarted(w, Next(w, s, l).value, i) + StartsIn(s, l, Next(w, s, l).value, i) <= Unstarted(w, s, i)
  {
    match l
    case ChildStep(j, step) => ChildStepStarts(w, s, j, step, i);
    case SaveTry(j, r) => SaveTryStarts(w, s, j, r, i);
    case OpenTry(r) => OpenTryStarts(w, s, r, i);
    case _ =>
  }

  lemma UnstartedIsNatural(w: World, s: Sys, i: nat)
    requires Ready(w) && ControlInv(w, s) && i < |w.Jobs()| && w.Jobs()[i] in w.Jobs()
    ensures Unstarted(w, s, i) >= 0
  {
    if i < |s.children| && !Duplicate(w.plan, i) {
      UnderWayWithin(w.Jobs()[i], w.oracles[i], s.children[i]);
    }
  }

  lemma {:induction false} AttemptsBounded(w: World, labels: seq<Label>, i: nat)
    requires Ready(w) && Reach(w, labels).Some? && i < |w.Jobs()| && w.Jobs()[i] in w.Jobs()
    ensures AttemptsMade(w, labels, i) + Unstarted(w, Reach(w, labels).value, i) <=
            AttemptsLeft(w.Jobs()[i], Open(w.Jobs()[i], 0, [], false))
  {
    if labels != [] {
      var before, l := labels[..|labels| - 1], labels[|labels| - 1];
      AttemptsBounded(w, before, i);
      ReachKeeps(w, before);
      NextStarts(w, Reach(w, before).value, l, i);
    }
  }

  /** In any run, one machine's activities and persistence are started, attempts
      abandoned in flight included, at most max times two plus seven plus three plus
      the fio profiles plus one. */
  lemma MachineAttemptsBounded(w: World, labels: seq<Label>, i: nat)
    requires Ready(w) && Reach(w, labels).Some? && i < |w.plan.machinePlans|
    ensures var p := w.plan.machinePlans[i];
            var profiles := if p.fioProfiles.Some? then |p.fioProfiles.value| else 0;
            AttemptsMade(w, labels, i) <= w.plan.maxAttempts * (2 + 7 + 3 + profiles + 1)
  {
    assert w.Jobs()[i] == MachineJob(w.plan.machinePlans[i]);
    assert w.Jobs()[i] in w.Jobs();
    AttemptsBounded(w, labels, i);
    ReachKeeps(w, labels);
    UnstartedIsNatural(w, Reach(w, labels).value, i);
    MachineAttempts(w.plan.machinePlans[i]);
  }
}
