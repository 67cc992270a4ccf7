/** The batch row over whole runs: when it exists, when it is closed, and runs that
    end with it stuck on `running`. */
module BatchRows {

  import opened Wrappers
  import opened Model
  import opened Store
  import opened Delivery
  import opened Jobs
  import opened ChildRun
  import opened Batch
  import opened BatchSystem
  import opened BatchSafety
  import opened BatchResults
  import opened BatchReporting
  import opened BatchRuns

  /** Some attempt to open the batch reached the store. */
  predicate OpeningArrived(w: World, h: seq<Attempt>) {
    exists a | a in h :: a.event == InitEvent(w) && a.fate != Dropped
  }

  /** The closing that counts: the last one that reached the store. */
  function LastClosing(w: World, h: seq<Attempt>): Option<(Status, Instant)> {
    LastClose(h, w.plan.batchId)
  }

  /** The row is there exactly when an opening arrived, and is then the opened row
      with the last closing that arrived. */
  predicate RowFollows(w: World, h: seq<Attempt>) {
    var id, db := w.plan.batchId, Replay(w.db0, h);
    if OpeningArrived(w, h)
    then id in db.batches &&
         db.batches[id] == ClosedBy(BatchRow(w.plan.workflowId, Running, None, w.plan.config), LastClosing(w, h))
    else id !in db.batches && LastClosing(w, h).None?
  }

  lemma ClosingSnoc(w: World, h: seq<Attempt>, a: Attempt)
    ensures LastClosing(w, h + [a]) == if LastClosing(w, [a]).Some? then LastClosing(w, [a]) else LastClosing(w, h)
    ensures OpeningArrived(w, h + [a]) <==>
            OpeningArrived(w, h) || (a.event == InitEvent(w) && a.fate != Dropped)
  {
    assert (h + [a])[..|h|] == h && [a][..0] == [] && LastClose([], w.plan.batchId) == None;
    assert forall b :: b in h + [a] <==> b in h || b == a;
  }

  /** An attempt on a batch row when this batch's row is not there. */
  lemma UnopenedStep(w: World, db: Db, a: Attempt)
    requires w.plan.batchId !in db.batches && !WorkflowTaken(db, w.plan.workflowId) && !a.event.Child?
    requires a.event == InitEvent(w) || Foreign(w, a.event)
    ensures var db' := Deliver(db, a);
            if a.event == InitEvent(w) && a.fate != Dropped
            then w.plan.batchId in db'.batches &&
                 db'.batches[w.plan.batchId] == BatchRow(w.plan.workflowId, Running, None, w.plan.config)
            else w.plan.batchId !in db'.batches
  {
  }

  lemma NotAClosing(w: World, a: Attempt)
    requires a.event.Finalize? ==> a.event.batchId != w.plan.batchId
    ensures LastClosing(w, [a]).None?
  {
    assert [a][..0] == [] && LastClose([], w.plan.batchId) == None;
  }

  lemma OpenedStep(w: World, h: seq<Attempt>, a: Attempt)
    requires Valid(w.db0) && OpeningArrived(w, h) && RowFollows(w, h)
    ensures RowFollows(w, h + [a])
  {
    var db := Replay(w.db0, h);
    ReplaySnoc(w.db0, h, a);
    ClosingSnoc(w, h, a);
    BatchesStay(w.db0, h);
    if a.event.Child? {
      ChildLeavesBatches(db, a);
      NotAClosing(w, a);
    } else {
      DeliverBatchRow(db, a, w.plan.batchId);
    }
  }

  lemma RowStepFollows(w: World, s: Sys, a: Attempt)
    requires Ready(w) && RowInv(w, s) && Admitted(w, s.root, a.event) && RowFollows(w, s.history)
    ensures RowFollows(w, s.history + [a])
  {
    if OpeningArrived(w, s.history) {
      OpenedStep(w, s.history, a);
    } else {
      ReplaySnoc(w.db0, s.history, a);
      ClosingSnoc(w, s.history, a);
      NotAClosing(w, a);
      BatchesStay(w.db0, s.history);
      if a.event.Child? {
        ChildLeavesBatches(DbOf(w, s), a);
      } else {
        UnopenedStep(w, DbOf(w, s), a);
      }
    }
  }

  /** A closing that arrived carries the verdict. */
  predicate ClosedRight(w: World, s: Sys) {
    LastClosing(w, s.history).Some? ==> HasResult(s.root) && LastClosing(w, s.history).value.0 == s.root.result.status
  }

  lemma ClosedRightStep(w: World, s: Sys, l: Label)
    requires Ready(w) && EventsInv(w, s) && ControlInv(w, s) && ClosedRight(w, s) && Next(w, s, l).Some?
    ensures ClosedRight(w, Next(w, s, l).value)
  {
    SentIsAdmitted(w, s, l);
    if HasResult(s.root) {
      VerdictStays(w, s, l);
    }
    match Sent(w, s, l)
    case Some(a) =>
      ClosingSnoc(w, s.history, a);
      assert [a][..0] == [];
    case None => assert s.history + [] == s.history;
  }

  lemma VerdictStays(w: World, s: Sys, l: Label)
    requires Sized(w) && Planned(w.plan) && Next(w, s, l).Some? && HasResult(s.root)
    ensures HasResult(Next(w, s, l).value.root) && Next(w, s, l).value.root.result == s.root.result
  {
  }

  lemma {:induction false} ReachRow(w: World, labels: seq<Label>)
    requires Ready(w) && Reach(w, labels).Some?
    ensures RowFollows(w, Reach(w, labels).value.history) && ClosedRight(w, Reach(w, labels).value)
  {
    if labels != [] {
      var before, l := labels[..|labels| - 1], labels[|labels| - 1];
      ReachRow(w, before);
      ReachKeeps(w, before);
      var s := Reach(w, before).value;
      ClosedRightStep(w, s, l);
      SentIsAdmitted(w, s, l);
      match Sent(w, s, l)
      case Some(a) => RowStepFollows(w, s, a);
      case None => assert s.history + [] == s.history;
    }
  }

  /** In every reachable state: the batch row exists exactly when an attempt to open
      it reached the store, and it has left `running` exactly when an attempt to
      close it did, carrying the verdict then. */
  lemma RowRunsUntilClosed(w: World, s: Sys)
    requires Ready(w) && Reachable(w, s)
    ensures var id, db := w.plan.batchId, DbOf(w, s);
            && (id in db.batches <==> OpeningArrived(w, s.history))
            && (id in db.batches ==>
                  && (db.batches[id].status != Running <==> LastClosing(w, s.history).Some?)
                  && (LastClosing(w, s.history).Some? ==>
                        HasResult(s.root) && db.batches[id].status == s.root.result.status))
  {
    ReachableInv(w, s);
    var labels :| Reach(w, labels) == Some(s);
    ReachRow(w, labels);
  }

  // ---- Stuck rows -----------------------------------------------------------------

  lemma {:induction false} LosingOpenings(w: World, labels: seq<Label>) returns (longer: seq<Label>)
    requires Ready(w) && Reach(w, labels).Some? && Reach(w, labels).value.root.Opening?
    ensures Reach(w, longer).Some? && Reach(w, longer).value.root.OpenFailed?
    ensures OpeningArrived(w, Reach(w, longer).value.history)
    decreases Reach(w, labels).value.root.left
  {
    var s, l := Reach(w, labels).value, OpenTry(Tried(AckLost));
    ReachKeeps(w, labels);
    OneMore(w, labels, l);
    longer := labels + [l];
    ClosingSnoc(w, s.history, Attempt(InitEvent(w), AckLost));
    if s.root.left > 1 {
      longer := LosingOpenings(w, longer);
    }
  }

  /** Every ready batch has a run in which it raises at the start, having opened a
      row that nobody will ever close. */
  lemma StuckAfterOpening(w: World) returns (labels: seq<Label>)
    requires Ready(w)
    ensures Reach(w, labels).Some?
    ensures var s := Reach(w, labels).value;
            && s.root.OpenFailed?
            && w.plan.batchId in DbOf(w, s).batches && DbOf(w, s).batches[w.plan.batchId].status == Running
  {
    assert Reach(w, []) == Some(Begin(w));
    labels := LosingOpenings(w, []);
    ReachRow(w, labels);
  }

  lemma DroppedClosing(w: World, s: Sys)
    requires Sized(w) && Planned(w.plan) && s.root.Closing?
    ensures var next := CloseTried(w, s, Tried(Dropped), 0);
            && next.Some?
            && LastClosing(w, next.value.history) == LastClosing(w, s.history)
            && next.value.root ==
               if s.root.left > 1 then Root.Closing(s.root.result, s.root.left - 1) else CloseFailed(s.root.result)
  {
    var a := Attempt(Finalize(w.plan.batchId, s.root.result.status, 0), Dropped);
    ClosingSnoc(w, s.history, a);
    assert [a][..0] == [] && LastClose([], w.plan.batchId) == None;
  }

  lemma {:induction false} DroppingClosings(w: World, labels: seq<Label>) returns (longer: seq<Label>)
    requires Ready(w) && Reach(w, labels).Some? && Reach(w, labels).value.root.Closing?
    requires LastClosing(w, Reach(w, labels).value.history).None?
    ensures Reach(w, longer).Some? && Reach(w, longer).value.root.CloseFailed?
    ensures LastClosing(w, Reach(w, longer).value.history).None?
    decreases Reach(w, labels).value.root.left
  {
    var s, l := Reach(w, labels).value, CloseTry(Tried(Dropped), 0);
    DroppedClosing(w, s);
    OneMore(w, labels, l);
    longer := labels + [l];
    if s.root.left > 1 {
      longer := DroppingClosings(w, longer);
    }
  }

  /** And one in which all results are in, but no closing gets through. */
  lemma StuckAfterVerdict(w: World) returns (labels: seq<Label>)
    requires Ready(w)
    ensures Reach(w, labels).Some?
    ensures var s := Reach(w, labels).value;
            && s.root.CloseFailed?
            && w.plan.batchId in DbOf(w, s).batches && DbOf(w, s).batches[w.plan.batchId].status == Running
  {
    labels := OpeningRun(w);
    labels := VerdictRun(w, labels);
    ReachRow(w, labels[..|labels| - 1]);
    labels := DroppingClosings(w, labels);
    ReachRow(w, labels);
    ReachKeeps(w, labels);
  }
}
