/** Which results a batch reports: the exact condition, in every run, for a child
    whose phases are measured to return them. */
module BatchReporting {

  import opened Wrappers
  import opened Model
  import opened Store
  import opened Delivery
  import opened Jobs
  import opened ChildRun
  import opened Batch
  import opened BatchSystem
  import opened BatchSafety
  import opened BatchResults

  // ---- Arrivals -------------------------------------------------------------------

  /** The fate of the first attempt of a payload that reached the store. */
  function Arrival(h: seq<Attempt>, p: Sink): Option<Fate> {
    if h == [] then None
    else
      var earlier, a := h[..|h| - 1], h[|h| - 1];
      if Arrival(earlier, p).Some? then Arrival(earlier, p)
      else if a.event == Event.Child(p) && a.fate != Dropped then Some(a.fate)
      else None
  }

  /** The workflow learns that the payload is stored: its first arrival is
      acknowledged or, if it has no phases to reject, any attempt is. */
  predicate Confirmed(h: seq<Attempt>, p: Sink) {
    if p.Phases() == [] then Attempt(Event.Child(p), Acked) in h else Arrival(h, p) == Some(Acked)
  }

  lemma {:induction false} NoArrivalNoAck(h: seq<Attempt>, p: Sink)
    requires Arrival(h, p).None?
    ensures Attempt(Event.Child(p), Acked) !in h
  {
    if h != [] {
      var n := |h| - 1;
      assert h == h[..n] + [h[n]];
      NoArrivalNoAck(h[..n], p);
    }
  }

  lemma ArrivalSnoc(h: seq<Attempt>, a: Attempt, p: Sink)
    ensures Arrival(h + [a], p) ==
            if Arrival(h, p).Some? then Arrival(h, p)
            else if a.event == Event.Child(p) && a.fate != Dropped then Some(a.fate)
            else None
    ensures a != Attempt(Event.Child(p), Acked) && p.Phases() == [] ==> Confirmed(h + [a], p) == Confirmed(h, p)
  {
    assert (h + [a])[..|h|] == h;
  }

  lemma {:induction false} WinnersArrived(db: Db, h: seq<Attempt>, p: Sink)
    requires p in Winners(db, h)
    ensures Arrival(h, p).Some?
  {
    if h != [] {
      var n := |h| - 1;
      if p in Winners(db, h[..n]) {
        WinnersArrived(db, h[..n], p);
      }
    }
  }

  lemma {:induction false} ArrivalStays(h: seq<Attempt>, n: nat, p: Sink)
    requires n <= |h| && Arrival(h[..n], p).Some?
    ensures Arrival(h, p) == Arrival(h[..n], p)
    decreases |h|
  {
    if n < |h| {
      assert h[..|h| - 1][..n] == h[..n];
      ArrivalStays(h[..|h| - 1], n, p);
    } else {
      assert h[..n] == h;
    }
  }

  // ---- The invariant ------------------------------------------------------------------

  /** Whatever arrived has won, and is therefore stored whole. */
  ghost predicate ArrivedWon(w: World, h: seq<Attempt>, p: Sink) {
    Arrival(h, p).Some? ==> p in Winners(w.db0, h)
  }

  /** Nothing of child `i` is under way before it has measured; from then on it has
      returned exactly when its payload is confirmed. */
  predicate Reported(w: World, s: Sys, i: nat)
    requires Sized(w) && Planned(w.plan) && Yields(w, i)
  {
    var p := PayloadOf(w, i);
    if i >= |s.children| || s.children[i].Measuring?
    then Arrival(s.history, p).None? && Event.Child(p) !in s.late
    else s.children[i].Complete? <==> Confirmed(s.history, p)
  }

  ghost predicate ReportInv(w: World, s: Sys, i: nat)
    requires Sized(w) && Planned(w.plan) && Yields(w, i)
  {
    ArrivedWon(w, s.history, PayloadOf(w, i)) && Reported(w, s, i)
  }

  lemma PayloadsDiffer(w: World, i: nat, j: nat)
    requires Sized(w) && Planned(w.plan) && Yields(w, i) && Yields(w, j) && i != j
    ensures PayloadOf(w, i) != PayloadOf(w, j)
  {
    NoRivals(w, i, j);
  }

  lemma PayloadIsMember(w: World, i: nat)
    requires Sized(w) && Planned(w.plan) && Yields(w, i)
    ensures PayloadOf(w, i) in Payloads(w)
  {
  }

  lemma ArrivedWonStep(w: World, s: Sys, a: Attempt, p: Sink)
    requires Ready(w) && RowInv(w, s) && EventsInv(w, s) && Admitted(w, s.root, a.event)
    requires p in Payloads(w) && ArrivedWon(w, s.history, p)
    ensures ArrivedWon(w, s.history + [a], p)
  {
    var h := s.history;
    assert (h + [a])[..|h|] == h;
    if p !in Winners(w.db0, h) && a.event == Event.Child(p) && a.fate != Dropped {
      NeverBeaten(w, h, p);
      PayloadBatch(w, p);
      assert p !in w.others;
      assert Wins(Replay(w.db0, h), Winners(w.db0, h), a);
    }
  }

  /** A payload is in the store exactly when it has arrived there. */
  lemma PresentIffArrived(w: World, h: seq<Attempt>, p: Sink)
    requires Ready(w) && Within(h, AllPayloads(w)) && p in Payloads(w) && ArrivedWon(w, h, p)
    requires p.MachineSink? || p.Phases() != []
    ensures Present(Replay(w.db0, h), p) <==> Arrival(h, p).Some?
    ensures Absent(Replay(w.db0, h), p) <==> Arrival(h, p).None?
  {
    ExactlyOnce(w.db0, AllPayloads(w), h);
    if p in Winners(w.db0, h) {
      WinnersArrived(w.db0, h, p);
    }
    if Present(Replay(w.db0, h), p) && Absent(Replay(w.db0, h), p) {
      TracelessIsEmpty(Replay(w.db0, h), p);
    }
  }

  /** An attempt is acknowledged to a waiting child exactly when it is the first to
      arrive, or has no phases. */
  lemma AcknowledgedIff(w: World, s: Sys, p: Sink, r: Reply)
    requires Ready(w) && RowInv(w, s) && EventsInv(w, s) && Licit(w, s.root, Event.Child(p))
    requires ArrivedWon(w, s.history, p)
    ensures Acknowledged(w, s, Event.Child(p), r) <==>
            r == Tried(Acked) && (p.Phases() == [] || Arrival(s.history, p).None?)
  {
    LicitSave(w, s, p);
    if p.Phases() != [] {
      PresentIffArrived(w, s.history, p);
    }
  }

  // ---- Every step keeps it -----------------------------------------------------------

  /** An event that is not the child's own leaves its part of the invariant alone. */
  lemma OtherAttempt(w: World, s: Sys, e: Event, r: Reply, i: nat)
    requires Sized(w) && Planned(w.plan) && Yields(w, i) && Reported(w, s, i)
    requires e != Event.Child(PayloadOf(w, i))
    ensures Reported(w, Send(s, e, r), i)
  {
    if r.Tried? {
      ArrivalSnoc(s.history, Attempt(e, r.fate), PayloadOf(w, i));
    }
  }

  lemma OwnSave(w: World, s: Sys, r: Reply, i: nat)
    requires Ready(w) && Inv(w, s) && Yields(w, i) && ReportInv(w, s, i)
    requires SaveTried(w, s, i, r).Some?
    ensures Reported(w, SaveTried(w, s, i, r).value, i)
  {
    var p := PayloadOf(w, i);
    SavingIsLicit(w, s, i);
    assert w.Jobs()[i] in w.Jobs();
    assert SinkOf(w, i, s.children[i].phases) == p;
    AcknowledgedIff(w, s, p, r);
    if r.Tried? {
      ArrivalSnoc(s.history, Attempt(Event.Child(p), r.fate), p);
    }
  }

  lemma SaveTryReported(w: World, s: Sys, j: nat, r: Reply, i: nat)
    requires Ready(w) && Inv(w, s) && Yields(w, i) && ReportInv(w, s, i)
    requires SaveTried(w, s, j, r).Some?
    ensures Reported(w, SaveTried(w, s, j, r).value, i)
  {
    if i == j {
      OwnSave(w, s, r, i);
    } else {
      assert w.Jobs()[j] in w.Jobs();
      assert Yields(w, j) && SinkOf(w, j, s.children[j].phases) == PayloadOf(w, j);
      PayloadsDiffer(w, i, j);
      OtherAttempt(w, s, Event.Child(PayloadOf(w, j)), r, i);
    }
  }

  lemma ChildStepReported(w: World, s: Sys, j: nat, step: Step, i: nat)
    requires Ready(w) && ControlInv(w, s) && Yields(w, i) && Reported(w, s, i)
    requires ChildStepped(w, s, j, step).Some?
    ensures Reported(w, ChildStepped(w, s, j, step).value, i)
  {
    if i == j {
      assert w.Jobs()[i] in w.Jobs();
      NoArrivalNoAck(s.history, PayloadOf(w, i));
      NeverCompletes(w.Jobs()[i], w.oracles[i], s.children[i], step);
    }
  }

  lemma LateArrival(w: World, s: Sys, e: Event, late: multiset<Event>, i: nat)
    requires Sized(w) && Planned(w.plan) && Yields(w, i) && Reported(w, s, i)
    requires e in s.late && late <= s.late
    ensures Reported(w, Send(s, e, Tried(AckLost)).(late := late), i)
  {
    ArrivalSnoc(s.history, Attempt(e, AckLost), PayloadOf(w, i));
  }

  lemma ArriveReported(w: World, s: Sys, e: Event, i: nat)
    requires Sized(w) && Planned(w.plan) && Yields(w, i) && Reported(w, s, i)
    requires Arrived(s, e).Some?
    ensures Reported(w, Arrived(s, e).value, i)
  {
    NextArrive(s, e);
    LateArrival(w, s, e, s.late - multiset{e}, i);
  }

  lemma OpenTryReported(w: World, s: Sys, r: Reply, i: nat)
    requires Ready(w) && ControlInv(w, s) && Yields(w, i) && Reported(w, s, i)
    requires OpenTried(w, s, r).Some?
    ensures Reported(w, OpenTried(w, s, r).value, i)
  {
    OtherAttempt(w, s, InitEvent(w), r, i);
  }

  lemma CloseTryReported(w: World, s: Sys, r: Reply, at: Instant, i: nat)
    requires Sized(w) && Planned(w.plan) && Yields(w, i) && Reported(w, s, i)
    requires CloseTried(w, s, r, at).Some?
    ensures Reported(w, CloseTried(w, s, r, at).value, i)
  {
    OtherAttempt(w, s, Finalize(w.plan.batchId, s.root.result.status, at), r, i);
  }

  lemma ForeignReported(w: World, s: Sys, a: Attempt, i: nat)
    requires Ready(w) && Yields(w, i) && Reported(w, s, i) && Foreign(w, a.event)
    ensures Reported(w, s.(history := s.history + [a]), i)
  {
    PayloadIsMember(w, i);
    PayloadBatch(w, PayloadOf(w, i));
    ArrivalSnoc(s.history, a, PayloadOf(w, i));
  }

  lemma NextReported(w: World, s: Sys, l: Label, i: nat)
    requires Ready(w) && Inv(w, s) && Yields(w, i) && ReportInv(w, s, i) && Next(w, s, l).Some?
    ensures Reported(w, Next(w, s, l).value, i)
  {
    match l
    case OpenTry(r) => OpenTryReported(w, s, r, i);
    case ChildStep(j, step) => ChildStepReported(w, s, j, step, i);
    case SaveTry(j, r) => SaveTryReported(w, s, j, r, i);
    case GatherAll =>
    case CloseTry(r, at) => CloseTryReported(w, s, r, at, i);
    case Arrive(e) => ArriveReported(w, s, e, i);
    case Other(a) => ForeignReported(w, s, a, i);
  }

  /** The event a step sends to the store, if it sends one. */
  function Sent(w: World, s: Sys, l: Label): Option<Attempt>
    requires Sized(w) && Planned(w.plan) && Next(w, s, l).Some?
  {
    match l
    case OpenTry(Tried(fate)) => Some(Attempt(InitEvent(w), fate))
    case SaveTry(j, Tried(fate)) => Some(Attempt(Event.Child(SinkOf(w, j, s.children[j].phases)), fate))
    case CloseTry(Tried(fate), at) => Some(Attempt(Finalize(w.plan.batchId, s.root.result.status, at), fate))
    case Arrive(e) => Some(Attempt(e, AckLost))
    case Other(a) => Some(a)
    case _ => None
  }

  /** The history grows by what is sent, and what is sent is admitted. */
  lemma SentIsAdmitted(w: World, s: Sys, l: Label)
    requires Ready(w) && EventsInv(w, s) && ControlInv(w, s) && Next(w, s, l).Some?
    ensures Next(w, s, l).value.history ==
            s.history + match Sent(w, s, l) case Some(a) => [a] case None => []
    ensures Sent(w, s, l).Some? ==> Admitted(w, s.root, Sent(w, s, l).value.event)
  {
    if l.SaveTry? {
      SavingIsLicit(w, s, l.child);
    }
  }

  lemma NextArrivedWon(w: World, s: Sys, l: Label, p: Sink)
    requires Ready(w) && RowInv(w, s) && EventsInv(w, s) && ControlInv(w, s) && Next(w, s, l).Some?
    requires p in Payloads(w) && ArrivedWon(w, s.history, p)
    ensures ArrivedWon(w, Next(w, s, l).value.history, p)
  {
    SentIsAdmitted(w, s, l);
    match Sent(w, s, l)
    case Some(a) => ArrivedWonStep(w, s, a, p);
    case None => assert s.history + [] == s.history;
  }

  lemma NextKeepsReport(w: World, s: Sys, l: Label, i: nat)
    requires Ready(w) && Inv(w, s) && Yields(w, i) && ReportInv(w, s, i) && Next(w, s, l).Some?
    ensures ReportInv(w, Next(w, s, l).value, i)
  {
    NextReported(w, s, l, i);
    PayloadIsMember(w, i);
    NextArrivedWon(w, s, l, PayloadOf(w, i));
  }

  lemma {:induction false} ReachReported(w: World, labels: seq<Label>, i: nat)
    requires Ready(w) && Reach(w, labels).Some? && Yields(w, i)
    ensures ReportInv(w, Reach(w, labels).value, i)
  {
    if labels != [] {
      var before := labels[..|labels| - 1];
      ReachReported(w, before, i);
      ReachKeeps(w, before);
      NextKeepsReport(w, Reach(w, before).value, labels[|labels| - 1], i);
    }
  }

  // ---- What is reported --------------------------------------------------------------

  lemma ReachableReported(w: World, s: Sys, i: nat)
    requires Ready(w) && Reachable(w, s) && Yields(w, i)
    ensures Inv(w, s) && ReportInv(w, s, i)
  {
    ReachableInv(w, s);
    var labels :| Reach(w, labels) == Some(s);
    ReachReported(w, labels, i);
  }

  /** In every run, for every child whose activities all returned: once the verdict
      is out it has returned or raised for want of an acknowledgement, and it has
      returned exactly when the first attempt of its payload that reached the store
      was acknowledged (with no phases: when some attempt was). */
  lemma ReportedIffConfirmed(w: World, s: Sys, i: nat)
    requires Ready(w) && Reachable(w, s) && HasResult(s.root) && Yields(w, i)
    ensures i < |s.children|
    ensures s.children[i].Complete? || s.children[i].Unsaved?
    ensures s.children[i].Complete? <==> Confirmed(s.history, PayloadOf(w, i))
  {
    ReachableReported(w, s, i);
    assert w.Jobs()[i] in w.Jobs() && s.children[i] in s.children;
  }

  lemma PresentIffArrivedIn(w: World, s: Sys, i: nat)
    requires Ready(w) && Reachable(w, s) && Yields(w, i) && PayloadOf(w, i).Phases() != []
    ensures var p, db := PayloadOf(w, i), DbOf(w, s);
            && (Present(db, p) <==> Arrival(s.history, p).Some?)
            && (Absent(db, p) <==> Arrival(s.history, p).None?)
  {
    ReachableReported(w, s, i);
    PayloadIsMember(w, i);
    PresentIffArrived(w, s.history, PayloadOf(w, i));
  }

  /** The store against the report: a payload with phases is stored exactly when it
      arrived, and stored but left out exactly when its first arrival lost its
      acknowledgement. */
  lemma StoredUnreportedIff(w: World, s: Sys, i: nat)
    requires Ready(w) && Reachable(w, s) && HasResult(s.root) && Yields(w, i) && PayloadOf(w, i).Phases() != []
    ensures i < |s.children|
    ensures var p, db := PayloadOf(w, i), DbOf(w, s);
            && (Present(db, p) <==> Arrival(s.history, p).Some?)
            && (Absent(db, p) <==> Arrival(s.history, p).None?)
            && (Present(db, p) && s.children[i].Unsaved? <==> Arrival(s.history, p) == Some(AckLost))
  {
    ReportedIffConfirmed(w, s, i);
    PresentIffArrivedIn(w, s, i);
    ArrivalCases(s.history, PayloadOf(w, i));
  }

  lemma {:induction false} ArrivalCases(h: seq<Attempt>, p: Sink)
    ensures Arrival(h, p) == None || Arrival(h, p) == Some(AckLost) || Arrival(h, p) == Some(Acked)
  {
    if h != [] {
      ArrivalCases(h[..|h| - 1], p);
      match h[|h| - 1].fate
      case Dropped =>
      case AckLost =>
      case Acked =>
    }
  }

  /** Machines of the same name never both yield a result. */
  lemma SameMachineSameChild(w: World, i: nat, j: nat)
    requires Sized(w) && Planned(w.plan) && i < |w.plan.machinePlans| && j < |w.plan.machinePlans|
    requires !Duplicate(w.plan, i) && !Duplicate(w.plan, j)
    requires w.plan.machinePlans[i].machine == w.plan.machinePlans[j].machine
    ensures i == j
  {
  }

  lemma OutcomeIndex(w: World, cs: seq<Child>, m: MachineResult) returns (j: nat)
    requires Sized(w) && |cs| == |w.Jobs()| && m in Somes(MachineOutcomes(w, cs))
    ensures j < |w.plan.machinePlans| && cs[j].Complete? && m == MachineResultOf(w, j, cs[j].phases)
  {
    var outcomes := MachineOutcomes(w, cs);
    SomesMember(outcomes, m);
    j :| 0 <= j < |outcomes| && outcomes[j] == Some(m);
  }

  /** A machine's result is among the decided ones exactly when its child returned. */
  lemma MachineDecided(w: World, cs: seq<Child>, i: nat)
    requires Sized(w) && Planned(w.plan) && Yields(w, i) && i < |w.plan.machinePlans| && |cs| == |w.Jobs()|
    requires forall j | 0 <= j < |cs| :: ChildInv(w, j, cs[j])
    ensures PayloadOf(w, i).MachineSink?
    ensures PayloadOf(w, i).result in Decided(w, cs).machineResults <==> cs[i].Complete?
  {
    assert w.Jobs()[i].MachineJob? && w.Jobs()[i] in w.Jobs();
    var outcomes, m := MachineOutcomes(w, cs), PayloadOf(w, i).result;
    if cs[i].Complete? {
      assert outcomes[i] == Some(m);
      SomesMember(outcomes, m);
    }
    if m in Somes(outcomes) {
      var j := OutcomeIndex(w, cs, m);
      assert w.Jobs()[j].MachineJob?;
      SameMachineSameChild(w, i, j);
    }
  }

  /** A machine's result is in the batch result exactly when it was confirmed. */
  lemma MachineReportedIff(w: World, s: Sys, i: nat)
    requires Ready(w) && Reachable(w, s) && HasResult(s.root)
    requires Yields(w, i) && i < |w.plan.machinePlans|
    ensures PayloadOf(w, i).MachineSink?
    ensures PayloadOf(w, i).result in s.root.result.machineResults <==> Confirmed(s.history, PayloadOf(w, i))
  {
    ReportedIffConfirmed(w, s, i);
    ReachableInv(w, s);
    MachineDecided(w, s.children, i);
  }

  lemma GroupDecided(w: World, cs: seq<Child>, i: nat)
    requires Sized(w) && |cs| == |w.Jobs()| && |w.plan.machinePlans| <= i < |cs|
    ensures var r := Decided(w, cs);
            (if w.Jobs()[i].MeshJob? then r.mesh.Some? else r.encap.Some?) <==> cs[i].Complete?
  {
    var n := |w.plan.machinePlans|;
    assert w.Jobs()[i].MeshJob? ==> i == n && w.plan.meshPlan.Some?;
    assert !w.Jobs()[i].MeshJob? ==> i == |cs| - 1 && w.plan.encapPlan.Some?;
  }

  /** The mesh or encapsulation result is in the batch result exactly when it was
      confirmed. */
  lemma GroupReportedIff(w: World, s: Sys, i: nat)
    requires Ready(w) && Reachable(w, s) && HasResult(s.root)
    requires Yields(w, i) && i >= |w.plan.machinePlans|
    ensures i < |w.Jobs()|
    ensures (if w.Jobs()[i].MeshJob? then s.root.result.mesh.Some? else s.root.result.encap.Some?) <==>
            Confirmed(s.history, PayloadOf(w, i))
  {
    ReportedIffConfirmed(w, s, i);
    ReachableInv(w, s);
    GroupDecided(w, s.children, i);
  }

  lemma {:induction false} HistoryGrows(w: World, labels: seq<Label>, n: nat)
    requires Ready(w) && n <= |labels| && Reach(w, labels).Some?
    ensures Reach(w, labels[..n]).Some?
    ensures Reach(w, labels[..n]).value.history <= Reach(w, labels).value.history
    decreases |labels|
  {
    if n == |labels| {
      assert labels[..n] == labels;
    } else {
      var before := labels[..|labels| - 1];
      assert before[..n] == labels[..n];
      HistoryGrows(w, before, n);
      ReachKeeps(w, before);
      SentIsAdmitted(w, Reach(w, before).value, labels[|labels| - 1]);
    }
  }

  /** The price of rejecting redeliveries: once a payload with phases has arrived
      without its acknowledgement, no continuation of the run lets its child return,
      although the store holds the payload ever after. */
  lemma UnacknowledgedIsUnreported(w: World, labels: seq<Label>, n: nat, i: nat)
    requires Ready(w) && n <= |labels| && Reach(w, labels).Some? && Yields(w, i)
    requires PayloadOf(w, i).Phases() != []
    requires Reach(w, labels[..n]).Some? && Arrival(Reach(w, labels[..n]).value.history, PayloadOf(w, i)) == Some(AckLost)
    ensures var s := Reach(w, labels).value;
            && i < |s.children| && !s.children[i].Complete?
            && Present(DbOf(w, s), PayloadOf(w, i))
            && (HasResult(s.root) ==> s.children[i].Unsaved?)
  {
    var s, h, p := Reach(w, labels).value, Reach(w, labels[..n]).value.history, PayloadOf(w, i);
    HistoryGrows(w, labels, n);
    assert s.history[..|h|] == h;
    ArrivalStays(s.history, |h|, p);
    ReachKeeps(w, labels);
    ReachReported(w, labels, i);
    PayloadIsMember(w, i);
    PresentIffArrived(w, s.history, p);
    if HasResult(s.root) {
      ReportedIffConfirmed(w, s, i);
    }
  }
}
