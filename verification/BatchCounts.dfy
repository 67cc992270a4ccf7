/** How often a batch attempts its persistence activities: exactly as often as the
    retry policy allows, and until one attempt is acknowledged. */
module BatchCounts {

  import opened Wrappers
  import opened Model
  import opened Store
  import opened Delivery
  import opened Jobs
  import opened ChildRun
  import opened Batch
  import opened BatchSystem
  import opened BatchSafety
  import opened BatchResults
  import opened BatchReporting
  import opened BatchRuns

  /** The persistence activities of a batch. */
  datatype Duty = OpenRow | SaveChild(child: nat) | CloseRow

  /** The step is an attempt of this activity. */
  predicate Does(l: Label, d: Duty) {
    match l
    case OpenTry(_) => d.OpenRow?
    case SaveTry(i, _) => d == SaveChild(i)
    case CloseTry(_, _) => d.CloseRow?
    case _ => false
  }

  /** The attempts of an activity in a run. */
  function Made(labels: seq<Label>, d: Duty): nat {
    if labels == [] then 0 else Made(labels[..|labels| - 1], d) + if Does(labels[|labels| - 1], d) then 1 else 0
  }

  /** The step is an attempt that the workflow sees succeed. */
  predicate IsAcknowledged(w: World, s: Sys, l: Label)
    requires Sized(w) && Planned(w.plan)
  {
    match l
    case OpenTry(r) => Acknowledged(w, s, InitEvent(w), r)
    case SaveTry(i, r) =>
      && i < |s.children| == |w.Jobs()| && s.children[i].Saving?
      && Acknowledged(w, s, Event.Child(SinkOf(w, i, s.children[i].phases)), r)
    case CloseTry(r, at) =>
      s.root.Closing? && Acknowledged(w, s, Finalize(w.plan.batchId, s.root.result.status, at), r)
    case _ => false
  }

  /** The acknowledged attempts of an activity in a run. */
  function Succeeded(w: World, labels: seq<Label>, d: Duty): nat
    requires Sized(w) && Planned(w.plan) && Reach(w, labels).Some?
  {
    if labels == [] then 0
    else
      var before, l := labels[..|labels| - 1], labels[|labels| - 1];
      Succeeded(w, before, d) + if Does(l, d) && IsAcknowledged(w, Reach(w, before).value, l) then 1 else 0
  }

  // ---- Counting along a run ---------------------------------------------------------

  predicate OpeningsCounted(w: World, s: Sys, made: nat, succeeded: nat) {
    match s.root
    case Opening(left) => made + left == w.plan.maxAttempts && succeeded == 0
    case OpenFailed => made == w.plan.maxAttempts && succeeded == 0
    case _ => 1 <= made <= w.plan.maxAttempts && succeeded == 1
  }

  predicate ClosingsCounted(w: World, s: Sys, made: nat, succeeded: nat) {
    match s.root
    case Closing(_, left) => made + left == w.plan.maxAttempts && succeeded == 0
    case CloseFailed(_) => made == w.plan.maxAttempts && succeeded == 0
    case Finished(_) => 1 <= made <= w.plan.maxAttempts && succeeded == 1
    case _ => made == 0 && succeeded == 0
  }

  predicate SavesCounted(w: World, s: Sys, i: nat, made: nat, succeeded: nat) {
    if i >= |s.children| then made == 0 && succeeded == 0
    else
      match s.children[i]
      case Saving(_, left) => made + left == w.plan.maxAttempts && succeeded == 0
      case Unsaved => made == w.plan.maxAttempts && succeeded == 0
      case Complete(_) => 1 <= made <= w.plan.maxAttempts && succeeded == 1
      case _ => made == 0 && succeeded == 0
  }

  predicate Counted(w: World, s: Sys, d: Duty, made: nat, succeeded: nat) {
    match d
    case OpenRow => OpeningsCounted(w, s, made, succeeded)
    case CloseRow => ClosingsCounted(w, s, made, succeeded)
    case SaveChild(i) => SavesCounted(w, s, i, made, succeeded)
  }

  lemma OpeningsStep(w: World, s: Sys, l: Label, made: nat, succeeded: nat)
    requires Ready(w) && ControlInv(w, s) && Next(w, s, l).Some? && OpeningsCounted(w, s, made, succeeded)
    ensures OpeningsCounted(w, Next(w, s, l).value, made + (if Does(l, OpenRow) then 1 else 0),
                            succeeded + if Does(l, OpenRow) && IsAcknowledged(w, s, l) then 1 else 0)
  {
  }

  lemma CloseClosingsCounted(w: World, s: Sys, r: Reply, at: Instant, made: nat, succeeded: nat)
    requires Ready(w) && ControlInv(w, s) && CloseTried(w, s, r, at).Some? && ClosingsCounted(w, s, made, succeeded)
    ensures ClosingsCounted(w, CloseTried(w, s, r, at).value, made + 1,
                            succeeded + if IsAcknowledged(w, s, CloseTry(r, at)) then 1 else 0)
  {
  }

  lemma OtherClosingsCounted(w: World, s: Sys, l: Label, made: nat, succeeded: nat)
    requires Ready(w) && ControlInv(w, s) && Next(w, s, l).Some? && !l.CloseTry?
    requires ClosingsCounted(w, s, made, succeeded)
    ensures ClosingsCounted(w, Next(w, s, l).value, made, succeeded)
  {
  }

  lemma ClosingsStep(w: World, s: Sys, l: Label, made: nat, succeeded: nat)
    requires Ready(w) && ControlInv(w, s) && Next(w, s, l).Some? && ClosingsCounted(w, s, made, succeeded)
    ensures ClosingsCounted(w, Next(w, s, l).value, made + (if Does(l, CloseRow) then 1 else 0),
                            succeeded + if Does(l, CloseRow) && IsAcknowledged(w, s, l) then 1 else 0)
  {
    if l.CloseTry? {
      CloseClosingsCounted(w, s, l.reply, l.at, made, succeeded);
    } else {
      OtherClosingsCounted(w, s, l, made, succeeded);
    }
  }

  lemma StepSavesCounted(w: World, s: Sys, j: nat, step: Step, i: nat, made: nat, succeeded: nat)
    requires Ready(w) && ControlInv(w, s) && ChildStepped(w, s, j, step).Some? && SavesCounted(w, s, i, made, succeeded)
    ensures SavesCounted(w, ChildStepped(w, s, j, step).value, i, made, succeeded)
  {
    if i == j {
      assert w.Jobs()[i] in w.Jobs();
      NeverCompletes(w.Jobs()[i], w.oracles[i], s.children[i], step);
    }
  }

  lemma SaveSavesCounted(w: World, s: Sys, j: nat, r: Reply, i: nat, made: nat, succeeded: nat)
    requires Ready(w) && ControlInv(w, s) && SaveTried(w, s, j, r).Some? && SavesCounted(w, s, i, made, succeeded)
    ensures SavesCounted(w, SaveTried(w, s, j, r).value, i, made + (if i == j then 1 else 0),
                         succeeded + if i == j && IsAcknowledged(w, s, SaveTry(j, r)) then 1 else 0)
  {
    assert w.Jobs()[j] in w.Jobs();
  }

  lemma OpenSavesCounted(w: World, s: Sys, r: Reply, i: nat, made: nat, succeeded: nat)
    requires Ready(w) && ControlInv(w, s) && OpenTried(w, s, r).Some? && SavesCounted(w, s, i, made, succeeded)
    ensures SavesCounted(w, OpenTried(w, s, r).value, i, made, succeeded)
  {
  }

  lemma SavesStep(w: World, s: Sys, l: Label, i: nat, made: nat, succeeded: nat)
    requires Ready(w) && ControlInv(w, s) && Next(w, s, l).Some? && SavesCounted(w, s, i, made, succeeded)
    ensures SavesCounted(w, Next(w, s, l).value, i, made + (if Does(l, SaveChild(i)) then 1 else 0),
                         succeeded + if Does(l, SaveChild(i)) && IsAcknowledged(w, s, l) then 1 else 0)
  {
    match l
    case ChildStep(j, step) => StepSavesCounted(w, s, j, step, i, made, succeeded);
    case SaveTry(j, r) => SaveSavesCounted(w, s, j, r, i, made, succeeded);
    case OpenTry(r) => OpenSavesCounted(w, s, r, i, made, succeeded);
    case _ =>
  }

  /** In every run each persistence activity has been attempted as often as its state
      says: while attempts are left and none was acknowledged it is tried again, the
      first acknowledgement ends it, and it is given up only with the last attempt. */
  lemma {:induction false} AttemptsCounted(w: World, labels: seq<Label>, d: Duty)
    requires Ready(w) && Reach(w, labels).Some?
    ensures Counted(w, Reach(w, labels).value, d, Made(labels, d), Succeeded(w, labels, d))
  {
    if labels != [] {
      var before, l := labels[..|labels| - 1], labels[|labels| - 1];
      var s, made, succeeded := Reach(w, before).value, Made(before, d), Succeeded(w, before, d);
      AttemptsCounted(w, before, d);
      ReachKeeps(w, before);
      match d
      case OpenRow => OpeningsStep(w, s, l, made, succeeded);
      case CloseRow => ClosingsStep(w, s, l, made, succeeded);
      case SaveChild(i) => SavesStep(w, s, l, i, made, succeeded);
    }
  }

  /** A child gives up its save exactly when it has made all its attempts and none was
      acknowledged, returns exactly when one was, and waits only with fewer made. */
  lemma SaveGivenUpIff(w: World, labels: seq<Label>, i: nat)
    requires Ready(w) && Reach(w, labels).Some? && i < |Reach(w, labels).value.children|
    ensures var c, made, succeeded := Reach(w, labels).value.children[i], Made(labels, SaveChild(i)),
                                      Succeeded(w, labels, SaveChild(i));
            && (c.Unsaved? <==> made == w.plan.maxAttempts && succeeded == 0)
            && (c.Complete? <==> succeeded == 1)
            && (c.Saving? ==> made < w.plan.maxAttempts && succeeded == 0)
  {
    AttemptsCounted(w, labels, SaveChild(i));
    ReachKeeps(w, labels);
    assert w.Jobs()[i] in w.Jobs();
    assert ChildInv(w, i, Reach(w, labels).value.children[i]);
  }

  /** The batch gives up opening, or closing, its row exactly likewise. */
  lemma RowGivenUpIff(w: World, labels: seq<Label>)
    requires Ready(w) && Reach(w, labels).Some?
    ensures var root := Reach(w, labels).value.root;
            && (root.OpenFailed? <==>
                  Made(labels, OpenRow) == w.plan.maxAttempts && Succeeded(w, labels, OpenRow) == 0)
            && (root.Opening? ==> Made(labels, OpenRow) < w.plan.maxAttempts)
            && (root.CloseFailed? <==>
                  Made(labels, CloseRow) == w.plan.maxAttempts && Succeeded(w, labels, CloseRow) == 0)
            && (root.Closing? ==> Made(labels, CloseRow) < w.plan.maxAttempts)
            && (root.Finished? <==> Succeeded(w, labels, CloseRow) == 1)
  {
    AttemptsCounted(w, labels, OpenRow);
    AttemptsCounted(w, labels, CloseRow);
    ReachKeeps(w, labels);
  }

  // ---- Saved after transient failures -------------------------------------------------

  /** The saves of child `i` that crashed before reaching the store. */
  function Dropped(labels: seq<Label>, i: nat): nat {
    if labels == [] then 0
    else
      Dropped(labels[..|labels| - 1], i) + if labels[|labels| - 1] == SaveTry(i, Tried(Fate.Dropped)) then 1 else 0
  }

  lemma {:induction false} DroppedAreMade(labels: seq<Label>, i: nat)
    ensures Dropped(labels, i) <= Made(labels, SaveChild(i))
  {
    if labels != [] {
      DroppedAreMade(labels[..|labels| - 1], i);
    }
  }

  lemma MadeSnoc(labels: seq<Label>, l: Label, i: nat)
    ensures Made(labels + [l], SaveChild(i)) == Made(labels, SaveChild(i)) + if Does(l, SaveChild(i)) then 1 else 0
    ensures Dropped(labels + [l], i) == Dropped(labels, i) + if l == SaveTry(i, Tried(Fate.Dropped)) then 1 else 0
  {
    assert (labels + [l])[..|labels|] == labels;
  }

  /** Child `i` is waiting to save, nothing of its payload has arrived yet, and it has
      `left` attempts. */
  predicate Waiting(w: World, s: Sys, i: nat, left: nat)
    requires Sized(w) && Planned(w.plan) && Yields(w, i)
  {
    && s.root.Gathering? && i < |s.children| == |w.Jobs()| && s.children[i].Saving?
    && s.children[i].left == left && Arrival(s.history, PayloadOf(w, i)).None?
  }

  lemma DroppedSave(w: World, s: Sys, i: nat, left: nat)
    requires Ready(w) && ControlInv(w, s) && Yields(w, i) && Waiting(w, s, i, left) && left > 1
    ensures SaveTried(w, s, i, Tried(Fate.Dropped)).Some?
    ensures Waiting(w, SaveTried(w, s, i, Tried(Fate.Dropped)).value, i, left - 1)
  {
    ArrivalSnoc(s.history, Attempt(Event.Child(SinkOf(w, i, s.children[i].phases)), Fate.Dropped), PayloadOf(w, i));
  }

  lemma {:induction false} DroppingSaves(w: World, labels: seq<Label>, i: nat, left: nat, k: nat)
    returns (longer: seq<Label>)
    requires Ready(w) && Reach(w, labels).Some? && Yields(w, i)
    requires Waiting(w, Reach(w, labels).value, i, left) && k < left
    ensures Reach(w, longer).Some? && Waiting(w, Reach(w, longer).value, i, left - k)
    ensures Made(longer, SaveChild(i)) == Made(labels, SaveChild(i)) + k
    ensures Dropped(longer, i) == Dropped(labels, i) + k
    decreases k
  {
    longer := labels;
    if k > 0 {
      var l := SaveTry(i, Tried(Fate.Dropped));
      ReachKeeps(w, labels);
      DroppedSave(w, Reach(w, labels).value, i, left);
      OneMore(w, labels, l);
      MadeSnoc(labels, l, i);
      longer := DroppingSaves(w, labels + [l], i, left - 1, k - 1);
    }
  }

  lemma SuccessfulSave(w: World, s: Sys, i: nat, left: nat)
    requires Ready(w) && Inv(w, s) && ReportInvOf(w, s, i) && Waiting(w, s, i, left)
    ensures SaveTried(w, s, i, Tried(Acked)).Some?
    ensures var s' := SaveTried(w, s, i, Tried(Acked)).value; s'.root.Gathering? && s'.children[i].Complete?
  {
    SavingIsLicit(w, s, i);
    assert w.Jobs()[i] in w.Jobs();
    assert SinkOf(w, i, s.children[i].phases) == PayloadOf(w, i);
    AcknowledgedIff(w, s, PayloadOf(w, i), Tried(Acked));
  }

  ghost predicate ReportInvOf(w: World, s: Sys, i: nat)
    requires Sized(w) && Planned(w.plan)
  {
    Yields(w, i) && ReportInv(w, s, i)
  }

  lemma CompleteStep(w: World, s: Sys, l: Label, i: nat)
    requires Ready(w) && ControlInv(w, s) && i < |s.children| && s.children[i].Complete? && Next(w, s, l).Some?
    ensures i < |Next(w, s, l).value.children| && Next(w, s, l).value.children[i] == s.children[i]
    ensures !Does(l, SaveChild(i))
  {
  }

  /** A child that has returned stays so, and attempts nothing more. */
  lemma {:induction false} CompleteStays(w: World, labels: seq<Label>, n: nat, i: nat)
    requires Ready(w) && n <= |labels| && Reach(w, labels).Some? && Reach(w, labels[..n]).Some?
    requires i < |Reach(w, labels[..n]).value.children| && Reach(w, labels[..n]).value.children[i].Complete?
    ensures i < |Reach(w, labels).value.children|
    ensures Reach(w, labels).value.children[i] == Reach(w, labels[..n]).value.children[i]
    ensures Made(labels, SaveChild(i)) == Made(labels[..n], SaveChild(i)) && Dropped(labels, i) == Dropped(labels[..n], i)
    decreases |labels|
  {
    if n == |labels| {
      assert labels[..n] == labels;
    } else {
      var before, l := labels[..|labels| - 1], labels[|labels| - 1];
      assert before[..n] == labels[..n];
      CompleteStays(w, before, n, i);
      ReachKeeps(w, before);
      CompleteStep(w, Reach(w, before).value, l, i);
    }
  }

  /** The run up to where child `i` has saved after `k` attempts that crashed. */
  lemma SavingRun(w: World, i: nat, k: nat) returns (labels: seq<Label>)
    requires Ready(w) && Yields(w, i) && k < w.plan.maxAttempts
    ensures Reach(w, labels).Some? && Reach(w, labels).value.root.Gathering?
    ensures i < |Reach(w, labels).value.children| && Reach(w, labels).value.children[i].Complete?
    ensures Made(labels, SaveChild(i)) == k + 1 && Dropped(labels, i) == k
  {
    labels := OpeningRun(w);
    assert w.Jobs()[i] in w.Jobs();
    ArrivalSnoc([], Attempt(InitEvent(w), Acked), PayloadOf(w, i));
    assert [] + [Attempt(InitEvent(w), Acked)] == [Attempt(InitEvent(w), Acked)];
    labels := MeasuringRun(w, labels, i);
    AttemptsCounted(w, labels, SaveChild(i));
    DroppedAreMade(labels, i);
    labels := DroppingSaves(w, labels, i, w.plan.maxAttempts, k);
    ReachKeeps(w, labels);
    ReachReported(w, labels, i);
    SuccessfulSave(w, Reach(w, labels).value, i, w.plan.maxAttempts - k);
    OneMore(w, labels, SaveTry(i, Tried(Acked)));
    MadeSnoc(labels, SaveTry(i, Tried(Acked)), i);
    labels := labels + [SaveTry(i, Tried(Acked))];
  }

  /** A save outlives transient failures: for every ready batch, every child that
      yields and every number `k` of attempts that crash, short of the policy's limit,
      there is a run with exactly these attempts and one more that returns the batch
      with the child's result in it. */
  lemma SavedAfterFailures(w: World, i: nat, k: nat) returns (labels: seq<Label>)
    requires Ready(w) && Yields(w, i) && k < w.plan.maxAttempts
    ensures Reach(w, labels).Some? && Reach(w, labels).value.root.Finished?
    ensures Made(labels, SaveChild(i)) == k + 1 && Dropped(labels, i) == k
    ensures i < |w.Jobs()|
    ensures var result := Reach(w, labels).value.root.result;
            match w.Jobs()[i]
            case MachineJob(_) => PayloadOf(w, i).MachineSink? && PayloadOf(w, i).result in result.machineResults
            case MeshJob(_) => result.mesh.Some?
            case EncapJob(_) => result.encap.Some?
  {
    var saved := SavingRun(w, i, k);
    labels := VerdictRun(w, saved);
    labels := ClosingRun(w, labels);
    assert labels[..|saved|] == saved;
    CompleteStays(w, labels, |saved|, i);
    ResultIsIn(w, labels, i);
  }

  lemma ResultIsIn(w: World, labels: seq<Label>, i: nat)
    requires Ready(w) && Yields(w, i) && Reach(w, labels).Some? && HasResult(Reach(w, labels).value.root)
    requires i < |Reach(w, labels).value.children| && Reach(w, labels).value.children[i].Complete?
    ensures i < |w.Jobs()|
    ensures var result := Reach(w, labels).value.root.result;
            match w.Jobs()[i]
            case MachineJob(_) => PayloadOf(w, i).MachineSink? && PayloadOf(w, i).result in result.machineResults
            case MeshJob(_) => result.mesh.Some?
            case EncapJob(_) => result.encap.Some?
  {
    ReachKeeps(w, labels);
    var s := Reach(w, labels).value;
    if i < |w.plan.machinePlans| {
      MachineDecided(w, s.children, i);
      assert w.Jobs()[i].MachineJob?;
    } else {
      GroupDecided(w, s.children, i);
      assert !w.Jobs()[i].MachineJob?;
    }
  }

  // ---- Overdue attempts ----------------------------------------------------------------

  /** The event whose attempt times out in this step, if one does. */
  function TimesOut(w: World, s: Sys, l: Label): Option<Event>
    requires Sized(w) && Planned(w.plan) && Next(w, s, l).Some?
  {
    match l
    case OpenTry(TimedOut) => Some(InitEvent(w))
    case SaveTry(i, TimedOut) => Some(Event.Child(SinkOf(w, i, s.children[i].phases)))
    case CloseTry(TimedOut, at) => Some(Finalize(w.plan.batchId, s.root.result.status, at))
    case _ => None
  }

  function TimeOuts(w: World, labels: seq<Label>, e: Event): nat
    requires Sized(w) && Planned(w.plan) && Reach(w, labels).Some?
  {
    if labels == [] then 0
    else
      var before, l := labels[..|labels| - 1], labels[|labels| - 1];
      TimeOuts(w, before, e) + if TimesOut(w, Reach(w, before).value, l) == Some(e) then 1 else 0
  }

  function LateArrivals(labels: seq<Label>, e: Event): nat {
    if labels == [] then 0
    else LateArrivals(labels[..|labels| - 1], e) + if labels[|labels| - 1] == Arrive(e) then 1 else 0
  }

  lemma OverdueStep(w: World, s: Sys, l: Label, e: Event)
    requires Sized(w) && Planned(w.plan) && Next(w, s, l).Some?
    ensures Next(w, s, l).value.late[e] + (if l == Arrive(e) then 1 else 0) ==
            s.late[e] + if TimesOut(w, s, l) == Some(e) then 1 else 0
  {
  }

  /** No attempt is lost from sight: every one that timed out is overdue until it
      arrives, once. */
  lemma {:induction false} OverdueCounted(w: World, labels: seq<Label>, e: Event)
    requires Sized(w) && Planned(w.plan) && Reach(w, labels).Some?
    ensures Reach(w, labels).value.late[e] + LateArrivals(labels, e) == TimeOuts(w, labels, e)
  {
    if labels != [] {
      var before, l := labels[..|labels| - 1], labels[|labels| - 1];
      OverdueCounted(w, before, e);
      OverdueStep(w, Reach(w, before).value, l, e);
    }
  }
}
