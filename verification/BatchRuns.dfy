/** Runs that reach the corners: a stored result that goes unreported, a batch that
    passes because nothing returned, and batches for which this can happen. */
module BatchRuns {

  import opened Wrappers
  import opened Model
  import opened Store
  import opened Delivery
  import opened Jobs
  import opened ChildRun
  import opened Batch
  import opened BatchSystem
  import opened BatchSafety
  import opened BatchResults
  import opened BatchReporting
  import Cli

  // ---- Building runs ----------------------------------------------------------------

  lemma OneMore(w: World, labels: seq<Label>, l: Label)
    requires Sized(w) && Planned(w.plan) && Reach(w, labels).Some?
    ensures Reach(w, labels + [l]) == Next(w, Reach(w, labels).value, l)
  {
    assert (labels + [l])[..|labels|] == labels;
  }

  function RunWeight(w: World, s: Sys): nat
    requires Planned(w.plan)
  {
    if |s.children| <= |w.Jobs()| then SysWeight(w, s) else 0
  }

  function ChildWeight(w: World, s: Sys, i: nat): nat
    requires Planned(w.plan) && i < |w.Jobs()|
  {
    assert w.Jobs()[i] in w.Jobs();
    if i < |s.children| then Weight(w.Jobs()[i], s.children[i]) else 0
  }

  /** The batch opens at the first attempt. */
  lemma OpeningRun(w: World) returns (labels: seq<Label>)
    requires Ready(w)
    ensures Reach(w, labels) == Some(Sys(Gathering, Started(w), [Attempt(InitEvent(w), Acked)], multiset{}))
  {
    assert Reach(w, []) == Some(Begin(w)) && DbOf(w, Begin(w)) == w.db0;
    labels := [] + [OpenTry(Tried(Acked))];
    OneMore(w, [], OpenTry(Tried(Acked)));
    assert Begin(w).history + [Attempt(InitEvent(w), Acked)] == [Attempt(InitEvent(w), Acked)];
  }

  /** A child whose activities all return can be run to where it saves, without
      touching the store. */
  lemma {:induction false} MeasuringRun(w: World, labels: seq<Label>, i: nat) returns (longer: seq<Label>)
    requires Ready(w) && Reach(w, labels).Some? && Yields(w, i)
    requires var s := Reach(w, labels).value; s.root.Gathering? && i < |s.children| && s.children[i].Measuring?
    ensures Reach(w, longer).Some?
    ensures var s, s' := Reach(w, labels).value, Reach(w, longer).value;
            && s'.root.Gathering? && s'.history == s.history
            && i < |s'.children| == |w.Jobs()| && s'.children[i].Saving?
            && s'.children[i].left == w.plan.maxAttempts
    decreases ChildWeight(w, Reach(w, labels).value, i)
  {
    ReachKeeps(w, labels);
    assert w.Jobs()[i] in w.Jobs();
    var step := MeasuringSteps(w.Jobs()[i], w.oracles[i], Reach(w, labels).value.children[i]);
    OneMore(w, labels, ChildStep(i, step));
    longer := labels + [ChildStep(i, step)];
    if Reach(w, longer).value.children[i].Measuring? {
      longer := MeasuringRun(w, longer, i);
    }
  }

  lemma RootWaits(w: World, s: Sys, l: Label)
    requires Sized(w) && Planned(w.plan) && Next(w, s, l).Some? && (l.ChildStep? || l.SaveTry?)
    ensures Next(w, s, l).value.root == s.root
  {
  }

  /** A step that brings a gathering batch nearer the end of its children. */
  lemma GatheringStep(w: World, s: Sys) returns (l: Label)
    requires Ready(w) && Inv(w, s) && s.root.Gathering? && !AllTerminal(s)
    ensures Next(w, s, l).Some? && Next(w, s, l).value.root.Gathering?
    ensures RunWeight(w, Next(w, s, l).value) < RunWeight(w, s)
  {
    var i :| 0 <= i < |s.children| && !Terminal(s.children[i]);
    l := ChildProgress(w, s, i);
    RootWaits(w, s, l);
    StepWithin(w, s, l);
  }

  /** A gathering batch can always be run until all its children have ended. */
  lemma {:induction false} GatheringRun(w: World, labels: seq<Label>) returns (longer: seq<Label>)
    requires Ready(w) && Reach(w, labels).Some? && Reach(w, labels).value.root.Gathering?
    ensures labels <= longer && Reach(w, longer).Some?
    ensures Reach(w, longer).value.root.Gathering? && AllGathered(w, Reach(w, longer).value).Some?
    decreases RunWeight(w, Reach(w, labels).value)
  {
    ReachKeeps(w, labels);
    var s := Reach(w, labels).value;
    longer := labels;
    if !AllTerminal(s) {
      var l := GatheringStep(w, s);
      OneMore(w, labels, l);
      longer := GatheringRun(w, labels + [l]);
    }
  }

  /** And then to its verdict. */
  lemma VerdictRun(w: World, labels: seq<Label>) returns (longer: seq<Label>)
    requires Ready(w) && Reach(w, labels).Some? && Reach(w, labels).value.root.Gathering?
    ensures labels < longer && Reach(w, longer).Some? && Reach(w, longer).value.root.Closing?
    ensures Reach(w, longer[..|longer| - 1]).Some? && Reach(w, longer[..|longer| - 1]).value.root.Gathering?
    ensures Reach(w, longer).value.history == Reach(w, longer[..|longer| - 1]).value.history
  {
    var gathered := GatheringRun(w, labels);
    OneMore(w, gathered, GatherAll);
    longer := gathered + [GatherAll];
    assert longer[..|gathered|] == gathered;
  }

  /** A batch with a verdict can always close its row and return it. */
  lemma ClosingRun(w: World, labels: seq<Label>) returns (longer: seq<Label>)
    requires Ready(w) && Reach(w, labels).Some? && Reach(w, labels).value.root.Closing?
    ensures labels <= longer && Reach(w, longer).Some? && Reach(w, longer).value.root.Finished?
  {
    var s := Reach(w, labels).value;
    ReachKeeps(w, labels);
    assert s.root.result.status != Skipped;
    longer := labels + [CloseTry(Tried(Acked), 0)];
    OneMore(w, labels, CloseTry(Tried(Acked), 0));
  }

  // ---- Stored, yet unreported ------------------------------------------------------------

  /** A save whose acknowledgement is lost, when nothing has been saved before. */
  lemma LosingSave(w: World, s: Sys, i: nat)
    requires Ready(w) && ControlInv(w, s) && Yields(w, i) && s.history == [Attempt(InitEvent(w), Acked)]
    requires i < |s.children| == |w.Jobs()| && s.children[i].Saving?
    ensures SaveTried(w, s, i, Tried(AckLost)).Some?
    ensures var s' := SaveTried(w, s, i, Tried(AckLost)).value;
            s'.root == s.root && Arrival(s'.history, PayloadOf(w, i)) == Some(AckLost)
  {
    var p := PayloadOf(w, i);
    assert SinkOf(w, i, s.children[i].phases) == p;
    ArrivalSnoc([], Attempt(InitEvent(w), Acked), p);
    assert [] + [Attempt(InitEvent(w), Acked)] == s.history;
    ArrivalSnoc(s.history, Attempt(Event.Child(p), AckLost), p);
  }

  /** The first save commits, but its acknowledgement is lost. */
  lemma LosingRun(w: World, i: nat) returns (labels: seq<Label>)
    requires Ready(w) && Yields(w, i)
    ensures Reach(w, labels).Some? && Reach(w, labels).value.root.Gathering?
    ensures Arrival(Reach(w, labels).value.history, PayloadOf(w, i)) == Some(AckLost)
  {
    labels := OpeningRun(w);
    assert w.Jobs()[i] in w.Jobs();
    labels := MeasuringRun(w, labels, i);
    ReachKeeps(w, labels);
    LosingSave(w, Reach(w, labels).value, i);
    OneMore(w, labels, SaveTry(i, Tried(AckLost)));
    labels := labels + [SaveTry(i, Tried(AckLost))];
  }

  /** "Stored implies reported" fails for every batch with phases to store: it has a
      run in which it returns without a result that the store holds whole. */
  lemma StoredYetUnreported(w: World, i: nat) returns (labels: seq<Label>)
    requires Ready(w) && Yields(w, i) && PayloadOf(w, i).Phases() != []
    ensures Reach(w, labels).Some?
    ensures var s := Reach(w, labels).value;
            && s.root.Finished? && i < |s.children| && s.children[i].Unsaved?
            && Present(DbOf(w, s), PayloadOf(w, i))
  {
    var lost := LosingRun(w, i);
    labels := VerdictRun(w, lost);
    labels := ClosingRun(w, labels);
    assert labels[..|lost|] == lost;
    UnacknowledgedIsUnreported(w, labels, |lost|, i);
  }

  // ---- Passing for want of results -------------------------------------------------------

  /** If no child can return, every run that reaches a verdict says `passed` with no
      results. */
  lemma AllRaisedPasses(w: World, s: Sys)
    requires Ready(w) && Reachable(w, s) && HasResult(s.root)
    requires forall i | 0 <= i < |w.Jobs()| :: !Yields(w, i)
    ensures s.root.result == BatchResult(Passed, [], None, None)
  {
    ReachableInv(w, s);
    forall i | 0 <= i < |s.children| ensures !s.children[i].Complete? {
      assert w.Jobs()[i] in w.Jobs() && !Yields(w, i);
      assert ChildInv(w, i, s.children[i]);
    }
    NoneCompletePasses(w, s.children);
  }

  /** And such a batch has a run that returns. */
  lemma AllRaisedReturns(w: World) returns (labels: seq<Label>)
    requires Ready(w) && forall i | 0 <= i < |w.Jobs()| :: !Yields(w, i)
    ensures Reach(w, labels).Some? && Reach(w, labels).value.root == Finished(BatchResult(Passed, [], None, None))
  {
    labels := OpeningRun(w);
    labels := VerdictRun(w, labels);
    labels := ClosingRun(w, labels);
    AllRaisedPasses(w, Reach(w, labels).value);
  }

  // ---- Such batches exist -------------------------------------------------------------------

  const SMALL_CONFIG: Cli.Config := Cli.Config([], false, 3, true, true, "")

  const EMPTY_STORE: Db := Db(map[], map[], map[], multiset{})

  /** The plan the command line builds for the setup phase on one machine. */
  function SetupPlan(m: MachineSpec): Result<BatchPlan, Cli.Exit> {
    Cli.BuildBatchPlan(7, "bmt-batch-7", SMALL_CONFIG, [m], ["setup"])
  }

  lemma SetupPlanIs(m: MachineSpec)
    ensures var p := MachinePlan(m, ["setup"], None, Some(7), 3);
            SetupPlan(m) == Success(BatchPlan(7, "bmt-batch-7", "", [p], None, None, 3, true, true))
  {
    var phases := ["setup"];
    assert phases[0] == "setup" && phases[1..] == [];
    assert Cli.Filtered(phases) == phases;
    var e, s, t := "encap", "mesh", "stress";
    assert e[0] == 'e' && s[0] == 'm' && |t| == 6;
    assert e !in phases && s !in phases && t !in phases;
    assert SetupPlan(m).value.machinePlans == [MachinePlan(m, phases, None, Some(7), 3)];
  }

  /** An outcome for the setup activities; the other activities raise. */
  function SetupOracle(a: Activity): Outcome {
    match a
    case SshCheck => Returned(PhaseResult(1, "ssh_check", Passed, Json(""), [], 0, 1))
    case AptInstall => Returned(PhaseResult(2, "apt_install", Passed, Json(""), [], 1, 2))
    case _ => Raised
  }

  /** Every activity raises. */
  function RaisingOracle(a: Activity): Outcome { Raised }

  /** One well-formed payload is fresh in the empty store. */
  lemma OneFreshPayload(p: Sink)
    requires WellFormed(p)
    ensures Universe(EMPTY_STORE, {p} + {})
  {
  }

  /** A batch built by the command line, into an empty store, that meets all
      assumptions and has one payload with phases. */
  lemma ReadyBatchExists(m: MachineSpec)
    ensures SetupPlan(m).Success?
    ensures var w := World(SetupPlan(m).value, [SetupOracle], [5], [(0, 2)], EMPTY_STORE, {});
            Ready(w) && Yields(w, 0) && PayloadOf(w, 0).Phases() != []
  {
    SetupPlanIs(m);
    var p := MachinePlan(m, ["setup"], None, Some(7), 3);
    var w := World(SetupPlan(m).value, [SetupOracle], [5], [(0, 2)], EMPTY_STORE, {});
    assert w.Jobs() == [MachineJob(p)];
    SetupResults(p);
    assert Yields(w, 0);
    assert Payloads(w) == {PayloadOf(w, 0)};
    OneFreshPayload(PayloadOf(w, 0));
  }

  /** The same batch when its SSH check raises: it meets all assumptions and nothing
      can return. */
  lemma RaisingBatchExists(m: MachineSpec)
    ensures SetupPlan(m).Success?
    ensures var w := World(SetupPlan(m).value, [RaisingOracle], [5], [(0, 2)], EMPTY_STORE, {});
            Ready(w) && forall i | 0 <= i < |w.Jobs()| :: !Yields(w, i)
  {
    SetupPlanIs(m);
    var p := MachinePlan(m, ["setup"], None, Some(7), 3);
    var w := World(SetupPlan(m).value, [RaisingOracle], [5], [(0, 2)], EMPTY_STORE, {});
    assert w.Jobs() == [MachineJob(p)];
    assert SshCheck in MachineGroups(p, RaisingOracle)[0];
    MachineLayout(p, RaisingOracle);
    ConcatFour<Activity>([SshCheck], [], [], []);
    assert MachineGroups(p, RaisingOracle) == [[SshCheck], [], [], []];
    assert SshCheck in [SshCheck] + [] + [] + [];
    assert Payloads(w) == {};
  }

  lemma SetupResults(p: MachinePlan)
    requires p.phases == ["setup"]
    ensures Results(MachineJob(p), SetupOracle) ==
            Some([SetupOracle(SshCheck).result, SetupOracle(AptInstall).result])
  {
    MachineLayout(p, SetupOracle);
    ConcatFour<Activity>([SshCheck], [AptInstall], [], []);
    assert MachineGroups(p, SetupOracle) == [[SshCheck], [AptInstall], [], []];
    var all := [SshCheck, AptInstall];
    assert [SshCheck] + [AptInstall] + [] + [] == all;
    assert !Raises(all, SetupOracle);
    assert Collect(all, SetupOracle) == [SetupOracle(SshCheck).result, SetupOracle(AptInstall).result];
  }
}
