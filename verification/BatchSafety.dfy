/** What every reachable state of a batch keeps, and what follows for its result. */
module BatchSafety {

  import opened Wrappers
  import opened Model
  import opened Store
  import opened Delivery
  import opened Jobs
  import opened ChildRun
  import opened Batch
  import opened BatchSystem

  // ---- The invariant -----------------------------------------------------------

  predicate HasResult(root: Root) {
    root.Closing? || root.Finished? || root.CloseFailed?
  }

  /** The batch row, if it is there, is this workflow's and in one of the given
      states; if it is not, the workflow id is free. */
  predicate RowIs(w: World, db: Db, allowed: set<Status>) {
    if w.plan.batchId in db.batches then
      && db.batches[w.plan.batchId].workflowId == w.plan.workflowId
      && db.batches[w.plan.batchId].status in allowed
    else
      !WorkflowTaken(db, w.plan.workflowId)
  }

  /** The row states each control state allows: it leaves `running` only once the
      verdict is known, and then only for the verdict. */
  function RowStates(root: Root): set<Status> {
    match root
    case Closing(r, _) => {Running, r.status}
    case CloseFailed(r) => {Running, r.status}
    case Finished(r) => {r.status}
    case _ => {Running}
  }

  predicate RowInv(w: World, s: Sys) {
    && RowIs(w, DbOf(w, s), RowStates(s.root))
    && (s.root.Gathering? || HasResult(s.root) ==> w.plan.batchId in DbOf(w, s).batches)
  }

  /** The events the batch issues, and when: its children persist only once it has
      got past opening its row. */
  predicate Licit(w: World, root: Root, e: Event)
    requires Sized(w) && Planned(w.plan)
  {
    match e
    case Init(_, _, _) => e == InitEvent(w)
    case Child(sink) => sink in Payloads(w) && (root.Gathering? || HasResult(root))
    case Finalize(b, status, _) => b == w.plan.batchId && HasResult(root) && status == root.result.status
  }

  /** What may reach the store: this batch's events when due, other batches' always. */
  predicate Admitted(w: World, root: Root, e: Event)
    requires Sized(w) && Planned(w.plan)
  {
    Licit(w, root, e) || Foreign(w, e)
  }

  predicate EventsInv(w: World, s: Sys)
    requires Sized(w) && Planned(w.plan)
  {
    Within(s.history, AllPayloads(w)) && forall e | e in s.late :: Licit(w, s.root, e)
  }

  predicate ChildInv(w: World, i: nat, c: Child)
    requires Sized(w) && Planned(w.plan) && i < |w.Jobs()|
  {
    assert w.Jobs()[i] in w.Jobs();
    if Duplicate(w.plan, i) then c == Child.Crashed else OnTrack(w.Jobs()[i], w.oracles[i], c)
  }

  predicate ControlInv(w: World, s: Sys)
    requires Sized(w) && Planned(w.plan)
  {
    && |s.children| == (if s.root.Opening? || s.root.OpenFailed? then 0 else |w.Jobs()|)
    && (forall i | 0 <= i < |s.children| :: ChildInv(w, i, s.children[i]))
    && (s.root.Opening? || s.root.Closing? ==> s.root.left >= 1)
    && (HasResult(s.root) ==> AllTerminal(s) && s.root.result == Decided(w, s.children))
  }

  /** Everything a returned child reported is in the store. */
  ghost predicate StoredInv(w: World, s: Sys)
    requires Sized(w) && Planned(w.plan)
  {
    |s.children| <= |w.Jobs()| &&
    forall i | 0 <= i < |s.children| && s.children[i].Complete? ::
      Present(DbOf(w, s), SinkOf(w, i, s.children[i].phases))
  }

  ghost predicate Inv(w: World, s: Sys)
    requires Sized(w) && Planned(w.plan)
  {
    RowInv(w, s) && EventsInv(w, s) && ControlInv(w, s) && StoredInv(w, s)
  }

  // ---- One attempt at the store ----------------------------------------------------

  lemma OwnRowStep(w: World, db: Db, e: Event, root: Root)
    requires Sized(w) && Planned(w.plan) && Valid(db) && Licit(w, root, e) && RowIs(w, db, RowStates(root))
    requires HasResult(root) ==> w.plan.batchId in db.batches
    ensures var db' := After(db, Exec(db, e));
            RowIs(w, db', RowStates(root)) && db.batches.Keys <= db'.batches.Keys
  {
    match e
    case Init(_, _, _) => InitRow(w, db, RowStates(root));
    case Finalize(_, status, at) => assert status in RowStates(root);
    case Child(sink) => PersistKeepsValid(db, sink);
  }

  lemma ForeignRowStep(w: World, db: Db, e: Event, allowed: set<Status>)
    requires Valid(db) && Foreign(w, e) && RowIs(w, db, allowed)
    ensures var db' := After(db, Exec(db, e));
            RowIs(w, db', allowed) && db.batches.Keys <= db'.batches.Keys
  {
    match e
    case Init(b, workflowId, config) => ForeignInitRow(w, db, b, workflowId, config, allowed);
    case Finalize(b, status, at) => ForeignFinalizeRow(w, db, b, status, at, allowed);
    case Child(sink) => PersistKeepsValid(db, sink);
  }

  lemma ForeignInitRow(w: World, db: Db, b: Uuid, workflowId: string, config: string, allowed: set<Status>)
    requires b != w.plan.batchId && workflowId != w.plan.workflowId && RowIs(w, db, allowed)
    ensures var db' := After(db, InsertBatchRun(db, b, workflowId, config));
            RowIs(w, db', allowed) && db.batches.Keys <= db'.batches.Keys
  {
  }

  lemma ForeignFinalizeRow(w: World, db: Db, b: Uuid, status: Status, at: Instant, allowed: set<Status>)
    requires b != w.plan.batchId && RowIs(w, db, allowed)
    ensures var db' := After(db, FinalizeBatchRun(db, b, status, at));
            RowIs(w, db', allowed) && db.batches.Keys <= db'.batches.Keys
  {
  }

  lemma ReplaySnoc(db: Db, h: seq<Attempt>, a: Attempt)
    ensures Replay(db, h + [a]) == Deliver(Replay(db, h), a)
  {
    assert (h + [a])[..|h|] == h;
  }

  /** The batch row along the history. */
  lemma RowAttempt(w: World, h: seq<Attempt>, a: Attempt, root: Root)
    requires Sized(w) && Planned(w.plan) && Valid(w.db0) && Admitted(w, root, a.event)
    requires RowIs(w, Replay(w.db0, h), RowStates(root))
    requires HasResult(root) ==> w.plan.batchId in Replay(w.db0, h).batches
    ensures var db, db' := Replay(w.db0, h), Replay(w.db0, h + [a]);
            && db' == Deliver(db, a)
            && RowIs(w, db', RowStates(root)) && db.batches.Keys <= db'.batches.Keys
  {
    ReplaySnoc(w.db0, h, a);
    BatchesStay(w.db0, h);
    if Licit(w, root, a.event) {
      OwnRowStep(w, Replay(w.db0, h), a.event, root);
    } else {
      ForeignRowStep(w, Replay(w.db0, h), a.event, RowStates(root));
    }
  }

  lemma InitRow(w: World, db: Db, allowed: set<Status>)
    requires RowIs(w, db, allowed) && (w.plan.batchId !in db.batches ==> Running in allowed)
    ensures var db' := After(db, Exec(db, InitEvent(w)));
            && RowIs(w, db', allowed) && db.batches.Keys <= db'.batches.Keys
            && w.plan.batchId in db'.batches
  {
  }

  lemma FirstIsMember<T>(xs: seq<T>)
    ensures xs != [] ==> xs[0] in xs
  {
  }

  lemma TracelessIsEmpty(db: Db, p: Sink)
    requires Present(db, p) && Absent(db, p)
    ensures p.PhaseSink? && p.Phases() == []
  {
    FirstIsMember(p.Phases());
  }

  /** A payload that is there stays there. */
  lemma PresentStays(w: World, h: seq<Attempt>, a: Attempt, p: Sink)
    requires Ready(w) && Within(h + [a], AllPayloads(w)) && p in Payloads(w) && Present(Replay(w.db0, h), p)
    ensures Present(Replay(w.db0, h + [a]), p)
  {
    var u := AllPayloads(w);
    assert (h + [a])[..|h|] == h;
    assert Within(h, u) by { assert forall b | b in h :: b in h + [a]; }
    ExactlyOnce(w.db0, u, h);
    ExactlyOnce(w.db0, u, h + [a]);
    WinnersGrow(w.db0, h + [a], |h|);
    if p !in Winners(w.db0, h) {
      TracelessIsEmpty(Replay(w.db0, h), p);
    }
  }

  lemma PayloadMachine(w: World, i: nat)
    requires Sized(w) && Planned(w.plan) && Yields(w, i) && PayloadOf(w, i).MachineSink?
    ensures i < |w.plan.machinePlans|
    ensures PayloadOf(w, i).result.machine == w.plan.machinePlans[i].machine
  {
    assert w.Jobs()[i].MachineJob?;
  }

  /** Two children never compete for a (batch, name). */
  lemma NoRivals(w: World, i: nat, j: nat)
    requires Sized(w) && Planned(w.plan) && Yields(w, i) && Yields(w, j) && i != j
    ensures !Rivals(PayloadOf(w, i), PayloadOf(w, j))
  {
    if PayloadOf(w, i).MachineSink? && PayloadOf(w, j).MachineSink? {
      PayloadMachine(w, i);
      PayloadMachine(w, j);
    }
  }

  lemma PayloadIndex(w: World, p: Sink) returns (i: nat)
    requires Sized(w) && Planned(w.plan) && p in Payloads(w)
    ensures Yields(w, i) && p == PayloadOf(w, i)
  {
    i :| 0 <= i < |w.Jobs()| && Yields(w, i) && p == PayloadOf(w, i);
  }

  lemma NeverBeaten(w: World, h: seq<Attempt>, p: Sink)
    requires Ready(w) && Within(h, AllPayloads(w)) && p in Payloads(w) && p !in Winners(w.db0, h)
    ensures !Beaten(Replay(w.db0, h), p)
  {
    if p.MachineSink? {
      ExactlyOnce(w.db0, AllPayloads(w), h);
      PayloadBatch(w, p);
      assert !Beaten(w.db0, p);
      forall q | q in Winners(w.db0, h) ensures !Rivals(p, q) {
        if q in Payloads(w) {
          var i := PayloadIndex(w, p);
          var j := PayloadIndex(w, q);
          NoRivals(w, i, j);
        }
      }
      BeatenByRival(w.db0, Winners(w.db0, h), p);
    }
  }

  lemma PayloadBatch(w: World, p: Sink)
    requires Sized(w) && Planned(w.plan) && p in Payloads(w)
    ensures p.batchId == w.plan.batchId
  {
  }

  /** Once the batch row is there, a persistence attempt that reaches the store
      either writes the payload or is refused because it already was written. */
  lemma SaveOutcome(w: World, h: seq<Attempt>, p: Sink)
    requires Ready(w) && Within(h, AllPayloads(w)) && p in Payloads(w)
    requires w.plan.batchId in Replay(w.db0, h).batches
    ensures var db := Replay(w.db0, h);
            var t := Persist(db, p);
            && (t.Success? ==> Present(t.value, p))
            && (t.Failure? ==> t.error == PrimaryKey && Present(db, p) && p.Phases() != [])
  {
    var db := Replay(w.db0, h);
    ExactlyOnce(w.db0, AllPayloads(w), h);
    PayloadBatch(w, p);
    if p in Winners(w.db0, h) {
      PersistRepeated(db, p);
    } else {
      NeverBeaten(w, h, p);
      PersistFresh(db, p);
    }
  }

  /** An attempt at the store keeps what the invariant says of the batch row. */
  lemma SendRow(w: World, s: Sys, e: Event, r: Reply)
    requires Sized(w) && Planned(w.plan) && Valid(w.db0) && RowInv(w, s) && Admitted(w, s.root, e)
    ensures RowInv(w, Send(s, e, r))
  {
    if r.Tried? {
      RowAttempt(w, s.history, Attempt(e, r.fate), s.root);
    }
  }

  lemma SendEvents(w: World, s: Sys, e: Event, r: Reply)
    requires Ready(w) && EventsInv(w, s) && Admitted(w, s.root, e) && (r.TimedOut? ==> Licit(w, s.root, e))
    ensures EventsInv(w, Send(s, e, r))
  {
  }

  /** What has been reported stays stored. */
  lemma SendStored(w: World, s: Sys, e: Event, r: Reply)
    requires Ready(w) && EventsInv(w, s) && ControlInv(w, s) && StoredInv(w, s) && Admitted(w, s.root, e)
    ensures StoredInv(w, Send(s, e, r))
  {
    if r.Tried? {
      var a := Attempt(e, r.fate);
      forall i | 0 <= i < |s.children| && s.children[i].Complete?
        ensures Present(Replay(w.db0, s.history + [a]), SinkOf(w, i, s.children[i].phases))
      {
        ReportedIsPayload(w, i, s.children[i]);
        PresentStays(w, s.history, a, SinkOf(w, i, s.children[i].phases));
      }
    }
  }

  lemma SendKeeps(w: World, s: Sys, e: Event, r: Reply)
    requires Ready(w) && Inv(w, s) && Admitted(w, s.root, e) && (r.TimedOut? ==> Licit(w, s.root, e))
    ensures Inv(w, Send(s, e, r))
  {
    SendRow(w, s, e, r);
    SendEvents(w, s, e, r);
    SendStored(w, s, e, r);
  }

  lemma ReportedIsPayload(w: World, i: nat, c: Child)
    requires Sized(w) && Planned(w.plan) && i < |w.Jobs()| && ChildInv(w, i, c)
    requires c.Complete? || c.Saving?
    ensures SinkOf(w, i, c.phases) in Payloads(w)
  {
    assert w.Jobs()[i] in w.Jobs();
    assert Yields(w, i) && PayloadOf(w, i) == SinkOf(w, i, c.phases);
  }

  // ---- Every step keeps the invariant ---------------------------------------------

  lemma StartedInv(w: World)
    requires Ready(w)
    ensures forall i | 0 <= i < |w.Jobs()| :: ChildInv(w, i, Started(w)[i]) && !Started(w)[i].Complete?
  {
    forall i | 0 <= i < |w.Jobs()| ensures ChildInv(w, i, Started(w)[i]) {
      assert w.Jobs()[i] in w.Jobs();
      OpenOnTrack(w.Jobs()[i], w.oracles[i], 0, [], false);
    }
  }

  /** The control state moves on without taking back a verdict or the batch row. */
  predicate MovesOn(root: Root, next: Root) {
    && (root.Gathering? ==> next.Gathering? || HasResult(next))
    && (HasResult(root) ==> HasResult(next) && next.result == root.result)
  }

  lemma EventsMove(w: World, s: Sys, root: Root, children: seq<Child>)
    requires Sized(w) && Planned(w.plan) && EventsInv(w, s) && MovesOn(s.root, root)
    ensures EventsInv(w, s.(root := root, children := children))
  {
  }

  lemma OpenTryRow(w: World, s: Sys, r: Reply, root: Root)
    requires Sized(w) && Planned(w.plan) && Valid(w.db0) && RowInv(w, s) && s.root.Opening?
    requires if root.Gathering? then Acknowledged(w, s, InitEvent(w), r) else root.Opening? || root.OpenFailed?
    ensures RowInv(w, Send(s, InitEvent(w), r).(root := root))
  {
    SendRow(w, s, InitEvent(w), r);
    if root.Gathering? {
      InitRow(w, DbOf(w, s), {Running});
      RowAttempt(w, s.history, Attempt(InitEvent(w), Acked), s.root);
    }
  }

  lemma OpenSettles(w: World, s: Sys, r: Reply, root: Root, children: seq<Child>)
    requires Ready(w) && EventsInv(w, s) && ControlInv(w, s) && s.root.Opening?
    requires if root.Gathering? then children == Started(w) else children == []
    requires root.Gathering? || root.OpenFailed? || (root.Opening? && root.left >= 1)
    ensures var s' := Send(s, InitEvent(w), r).(root := root, children := children);
            EventsInv(w, s') && ControlInv(w, s') && StoredInv(w, s')
  {
    SendEvents(w, s, InitEvent(w), r);
    EventsMove(w, Send(s, InitEvent(w), r), root, children);
    StartedInv(w);
  }

  lemma OpenTryKeeps(w: World, s: Sys, r: Reply)
    requires Ready(w) && Inv(w, s) && OpenTried(w, s, r).Some?
    ensures Inv(w, OpenTried(w, s, r).value)
  {
    var s' := OpenTried(w, s, r).value;
    OpenTryRow(w, s, r, s'.root);
    assert s' == Send(s, InitEvent(w), r).(root := s'.root, children := s'.children);
    OpenSettles(w, s, r, s'.root, s'.children);
  }

  /** What a step makes of its child. */
  lemma SteppedChild(w: World, s: Sys, i: nat, step: Step)
    requires Sized(w) && Planned(w.plan) && ControlInv(w, s) && ChildStepped(w, s, i, step).Some?
    ensures var s' := ChildStepped(w, s, i, step).value;
            && i < |s'.children| == |s.children| == |w.Jobs()| && !HasResult(s.root)
            && s' == s.(children := s.children[i := s'.children[i]])
            && ChildInv(w, i, s'.children[i]) && !s'.children[i].Complete?
  {
    var job, o, c := w.Jobs()[i], w.oracles[i], s.children[i];
    assert job in w.Jobs();
    TakeStaysOnTrack(job, o, c, step);
    assert c in s.children && c.Measuring?;
    NeverCompletes(job, o, c, step);
  }

  lemma ChildStepKeeps(w: World, s: Sys, i: nat, step: Step)
    requires Ready(w) && Inv(w, s) && ChildStepped(w, s, i, step).Some?
    ensures Inv(w, ChildStepped(w, s, i, step).value)
  {
    SteppedChild(w, s, i, step);
    SettleChild(w, s, i, ChildStepped(w, s, i, step).value.children[i]);
  }

  lemma AcknowledgedIsPresent(w: World, s: Sys, p: Sink, r: Reply)
    requires Ready(w) && EventsInv(w, s) && p in Payloads(w) && w.plan.batchId in DbOf(w, s).batches
    requires Acknowledged(w, s, Event.Child(p), r)
    ensures Present(DbOf(w, Send(s, Event.Child(p), r)), p)
  {
    assert (s.history + [Attempt(Event.Child(p), Acked)])[..|s.history|] == s.history;
    SaveOutcome(w, s.history, p);
  }

  /** A child that waits for its persistence shows that the batch is gathering. */
  lemma SavingIsLicit(w: World, s: Sys, i: nat)
    requires Ready(w) && ControlInv(w, s) && i < |s.children| == |w.Jobs()| && s.children[i].Saving?
    ensures s.root.Gathering? && Licit(w, s.root, Event.Child(SinkOf(w, i, s.children[i].phases)))
  {
    assert s.children[i] in s.children;
    ReportedIsPayload(w, i, s.children[i]);
  }

  lemma ReplaceControl(w: World, s: Sys, i: nat, c: Child)
    requires Sized(w) && Planned(w.plan) && ControlInv(w, s)
    requires i < |s.children| == |w.Jobs()| && !HasResult(s.root) && ChildInv(w, i, c)
    ensures ControlInv(w, s.(children := s.children[i := c]))
  {
  }

  lemma ReplaceStored(w: World, s: Sys, i: nat, c: Child)
    requires Sized(w) && Planned(w.plan) && StoredInv(w, s) && i < |s.children| == |w.Jobs()|
    requires c.Complete? ==> Present(DbOf(w, s), SinkOf(w, i, c.phases))
    ensures StoredInv(w, s.(children := s.children[i := c]))
  {
    var s' := s.(children := s.children[i := c]);
    forall j | 0 <= j < |s'.children| && s'.children[j].Complete?
      ensures Present(DbOf(w, s'), SinkOf(w, j, s'.children[j].phases))
    {
      assert j != i ==> s'.children[j] == s.children[j];
    }
  }

  /** Replacing one child keeps the invariant when the new state is accounted for. */
  lemma SettleChild(w: World, s: Sys, i: nat, c: Child)
    requires Sized(w) && Planned(w.plan) && Inv(w, s)
    requires i < |s.children| == |w.Jobs()| && !HasResult(s.root) && ChildInv(w, i, c)
    requires c.Complete? ==> Present(DbOf(w, s), SinkOf(w, i, c.phases))
    ensures Inv(w, s.(children := s.children[i := c]))
  {
    ReplaceControl(w, s, i, c);
    ReplaceStored(w, s, i, c);
    EventsMove(w, s, s.root, s.children[i := c]);
  }

  lemma SaveSettles(w: World, s: Sys, i: nat, e: Event, r: Reply, c: Child)
    requires Ready(w) && Inv(w, s) && i < |s.children| == |w.Jobs()| && s.root.Gathering?
    requires e.Child? && Licit(w, s.root, e) && ChildInv(w, i, c)
    requires c.Complete? ==> Acknowledged(w, s, e, r) && e.sink == SinkOf(w, i, c.phases)
    ensures Inv(w, Send(s, e, r).(children := s.children[i := c]))
  {
    SendKeeps(w, s, e, r);
    if c.Complete? {
      AcknowledgedIsPresent(w, s, e.sink, r);
    }
    SettleChild(w, Send(s, e, r), i, c);
  }

  /** What an attempt to persist makes of its child. */
  lemma SavedChild(w: World, s: Sys, i: nat, r: Reply)
    requires Sized(w) && Planned(w.plan) && SaveTried(w, s, i, r).Some? && ChildInv(w, i, s.children[i])
    ensures var e, s' := Event.Child(SinkOf(w, i, s.children[i].phases)), SaveTried(w, s, i, r).value;
            && i < |s'.children| && s' == Send(s, e, r).(children := s.children[i := s'.children[i]])
            && ChildInv(w, i, s'.children[i])
            && (s'.children[i].Complete? ==>
                  s'.children[i].phases == s.children[i].phases && Acknowledged(w, s, e, r))
  {
  }

  lemma SaveTryKeeps(w: World, s: Sys, i: nat, r: Reply)
    requires Ready(w) && Inv(w, s) && SaveTried(w, s, i, r).Some?
    ensures Inv(w, SaveTried(w, s, i, r).value)
  {
    var e := Event.Child(SinkOf(w, i, s.children[i].phases));
    SavingIsLicit(w, s, i);
    SavedChild(w, s, i, r);
    SaveSettles(w, s, i, e, r, SaveTried(w, s, i, r).value.children[i]);
  }

  lemma FinalizeRow(w: World, db: Db, allowed: set<Status>, status: Status, at: Instant)
    requires RowIs(w, db, allowed) && w.plan.batchId in db.batches
    requires FinalizeBatchRun(db, w.plan.batchId, status, at).Success?
    ensures var db' := FinalizeBatchRun(db, w.plan.batchId, status, at).value;
            RowIs(w, db', {status}) && w.plan.batchId in db'.batches
  {
  }

  lemma CloseTryRow(w: World, s: Sys, r: Reply, at: Instant, root: Root)
    requires Sized(w) && Planned(w.plan) && Valid(w.db0) && RowInv(w, s) && s.root.Closing?
    requires HasResult(root) && root.result == s.root.result
    requires root.Finished? ==> Acknowledged(w, s, Finalize(w.plan.batchId, s.root.result.status, at), r)
    ensures RowInv(w, Send(s, Finalize(w.plan.batchId, s.root.result.status, at), r).(root := root))
  {
    var e := Finalize(w.plan.batchId, s.root.result.status, at);
    if root.Finished? {
      FinishedRow(w, s, s.root.result.status, at);
    } else {
      SendRow(w, s, e, r);
      UnfinishedRow(w, Send(s, e, r), root);
    }
  }

  lemma UnfinishedRow(w: World, s: Sys, root: Root)
    requires RowInv(w, s) && s.root.Closing?
    requires HasResult(root) && !root.Finished? && root.result == s.root.result
    ensures RowInv(w, s.(root := root))
  {
  }

  lemma FinishedRow(w: World, s: Sys, status: Status, at: Instant)
    requires RowIs(w, DbOf(w, s), RowStates(s.root)) && w.plan.batchId in DbOf(w, s).batches
    requires FinalizeBatchRun(DbOf(w, s), w.plan.batchId, status, at).Success?
    ensures var db := DbOf(w, Send(s, Finalize(w.plan.batchId, status, at), Tried(Acked)));
            RowIs(w, db, {status}) && w.plan.batchId in db.batches
  {
    ReplaySnoc(w.db0, s.history, Attempt(Finalize(w.plan.batchId, status, at), Acked));
    FinalizeRow(w, DbOf(w, s), RowStates(s.root), status, at);
  }

  lemma CloseControl(w: World, s: Sys, root: Root)
    requires Sized(w) && Planned(w.plan) && ControlInv(w, s) && s.root.Closing?
    requires HasResult(root) && root.result == s.root.result && (root.Closing? ==> root.left >= 1)
    ensures ControlInv(w, s.(root := root))
  {
  }

  lemma CloseSettles(w: World, s: Sys, e: Event, r: Reply, root: Root)
    requires Ready(w) && EventsInv(w, s) && ControlInv(w, s) && StoredInv(w, s)
    requires s.root.Closing? && Licit(w, s.root, e)
    requires HasResult(root) && root.result == s.root.result && (root.Closing? ==> root.left >= 1)
    ensures var s' := Send(s, e, r).(root := root); EventsInv(w, s') && ControlInv(w, s') && StoredInv(w, s')
  {
    SendEvents(w, s, e, r);
    EventsMove(w, Send(s, e, r), root, s.children);
    SendStored(w, s, e, r);
    CloseControl(w, Send(s, e, r), root);
  }

  lemma CloseTryKeeps(w: World, s: Sys, r: Reply, at: Instant)
    requires Ready(w) && Inv(w, s) && CloseTried(w, s, r, at).Some?
    ensures Inv(w, CloseTried(w, s, r, at).value)
  {
    var e, s' := Finalize(w.plan.batchId, s.root.result.status, at), CloseTried(w, s, r, at).value;
    CloseTryRow(w, s, r, at, s'.root);
    assert s' == Send(s, e, r).(root := s'.root);
    CloseSettles(w, s, e, r, s'.root);
  }

  lemma FewerOverdue(w: World, s: Sys, late: multiset<Event>)
    requires Sized(w) && Planned(w.plan) && Inv(w, s) && late <= s.late
    ensures Inv(w, s.(late := late))
  {
  }

  lemma ArriveSettles(w: World, s: Sys, e: Event, late: multiset<Event>)
    requires Ready(w) && Inv(w, s) && e in s.late && late <= s.late
    ensures Inv(w, Send(s, e, Tried(AckLost)).(late := late))
  {
    SendKeeps(w, s, e, Tried(AckLost));
    FewerOverdue(w, Send(s, e, Tried(AckLost)), late);
  }

  lemma NextArrive(s: Sys, e: Event)
    requires Arrived(s, e).Some?
    ensures e in s.late
    ensures Arrived(s, e).value == Send(s, e, Tried(AckLost)).(late := s.late - multiset{e})
  {
  }

  lemma ArriveKeeps(w: World, s: Sys, e: Event)
    requires Ready(w) && Inv(w, s) && Arrived(s, e).Some?
    ensures Inv(w, Arrived(s, e).value)
  {
    NextArrive(s, e);
    ArriveSettles(w, s, e, s.late - multiset{e});
  }

  lemma OtherKeeps(w: World, s: Sys, a: Attempt)
    requires Ready(w) && Inv(w, s) && Foreign(w, a.event)
    ensures Inv(w, s.(history := s.history + [a]))
  {
    SendKeeps(w, s, a.event, Tried(a.fate));
    assert a == Attempt(a.event, a.fate);
  }

  lemma GatherAllKeeps(w: World, s: Sys)
    requires Ready(w) && Inv(w, s) && AllGathered(w, s).Some?
    ensures Inv(w, AllGathered(w, s).value)
  {
    EventsMove(w, s, AllGathered(w, s).value.root, s.children);
  }

  lemma NextKeeps(w: World, s: Sys, l: Label)
    requires Ready(w) && Inv(w, s) && Next(w, s, l).Some?
    ensures Inv(w, Next(w, s, l).value)
  {
    match l
    case OpenTry(r) => OpenTryKeeps(w, s, r);
    case ChildStep(i, step) => ChildStepKeeps(w, s, i, step);
    case SaveTry(i, r) => SaveTryKeeps(w, s, i, r);
    case GatherAll => GatherAllKeeps(w, s);
    case CloseTry(r, at) => CloseTryKeeps(w, s, r, at);
    case Arrive(e) => ArriveKeeps(w, s, e);
    case Other(a) => OtherKeeps(w, s, a);
  }

  lemma {:induction false} ReachKeeps(w: World, labels: seq<Label>)
    requires Ready(w) && Reach(w, labels).Some?
    ensures Inv(w, Reach(w, labels).value)
  {
    if labels != [] {
      ReachKeeps(w, labels[..|labels| - 1]);
      NextKeeps(w, Reach(w, labels[..|labels| - 1]).value, labels[|labels| - 1]);
    }
  }

  /** `s` is a state of some run. */
  ghost predicate Reachable(w: World, s: Sys)
    requires Sized(w) && Planned(w.plan)
  {
    exists labels :: Reach(w, labels) == Some(s)
  }

  lemma ReachableInv(w: World, s: Sys)
    requires Ready(w) && Reachable(w, s)
    ensures Inv(w, s)
  {
    var labels :| Reach(w, labels) == Some(s);
    ReachKeeps(w, labels);
  }
}
