/** At-least-once delivery of persistence activities: any sequence of attempts,
    with crashes, lost acknowledgements, repeats and late arrivals. */
module Delivery {

  import opened Wrappers
  import opened Model
  import opened Store

  /** The input of one persistence activity. */
  datatype Event =
    | Init(batchId: Uuid, workflowId: string, config: string)
    | Child(sink: Sink)
    | Finalize(batchId: Uuid, status: Status, at: Instant)

  function Exec(db: Db, e: Event): Txn {
    match e
    case Init(b, w, c) => InsertBatchRun(db, b, w, c)
    case Child(s) => Persist(db, s)
    case Finalize(b, st, at) => FinalizeBatchRun(db, b, st, at)
  }

  /** What became of an attempt. Only a crash before the commit keeps it from
      reaching the store; a lost acknowledgement is invisible there. */
  datatype Fate = Dropped | AckLost | Acked

  datatype Attempt = Attempt(event: Event, fate: Fate)

  function Deliver(db: Db, a: Attempt): Db {
    if a.fate == Dropped then db else After(db, Exec(db, a.event))
  }

  /** The store after a history of attempts, oldest first. */
  function Replay(db: Db, h: seq<Attempt>): Db {
    if h == [] then db else Deliver(Replay(db, h[..|h| - 1]), h[|h| - 1])
  }

  // ---- The payloads in play ----------------------------------------------

  /** Two payloads share no uuid. */
  predicate Disjoint(s: Sink, t: Sink) {
    && (s.MachineSink? && t.MachineSink? ==> s.result.machineId != t.result.machineId)
    && (forall p, q | p in s.Phases() && q in t.Phases() :: p.id != q.id)
  }

  /** Two payloads describe the same machine of the same batch. */
  predicate Rivals(s: Sink, t: Sink) {
    s.MachineSink? && t.MachineSink? && s.batchId == t.batchId && s.result.machine.name == t.result.machine.name
  }

  /** Distinct well-formed payloads with fresh uuids, none of them in `db`. */
  ghost predicate Universe(db: Db, u: set<Sink>) {
    && Valid(db)
    && (forall s | s in u :: WellFormed(s) && Absent(db, s))
    && (forall s, t | s in u && t in u && s != t :: Disjoint(s, t))
  }

  predicate Within(h: seq<Attempt>, u: set<Sink>) {
    forall a | a in h && a.event.Child? :: a.event.sink in u
  }

  // ---- Exactly once --------------------------------------------------------

  /** The attempt that first gets `a`'s payload into the store. */
  ghost predicate Wins(db: Db, w: seq<Sink>, a: Attempt) {
    && a.event.Child? && a.fate != Dropped && a.event.sink !in w
    && a.event.sink.batchId in db.batches && !Beaten(db, a.event.sink)
  }

  /** The payloads that entered the store, in commit order. */
  ghost function Winners(db: Db, h: seq<Attempt>): seq<Sink> {
    if h == [] then []
    else
      var earlier, a := h[..|h| - 1], h[|h| - 1];
      var w := Winners(db, earlier);
      if Wins(Replay(db, earlier), w, a) then w + [a.event.sink] else w
  }

  ghost predicate NoDuplicates<T>(w: seq<T>) {
    forall i, j | 0 <= i < j < |w| :: w[i] != w[j]
  }

  /** Applies `f` to the items in turn. */
  function Fold<D, S>(f: (D, S) -> D, d: D, items: seq<S>): D {
    if items == [] then d else f(Fold(f, d, items[..|items| - 1]), items[|items| - 1])
  }

  /** The store after writing payloads whole, one after another. */
  function AddAll(db: Db, w: seq<Sink>): Db {
    Fold(Add, db, w)
  }

  predicate SameResults(a: Db, b: Db) {
    a.machines == b.machines && a.phases == b.phases && a.metrics == b.metrics
  }

  lemma AddKeepsPresent(db: Db, s: Sink, t: Sink)
    requires Disjoint(s, t) && Present(db, s)
    ensures Present(Add(db, t), s)
  {
    forall p | p in s.Phases() ensures p.id !in PhaseIds(t.Phases()) {}
    forall r: MetricRow | r.phaseId in PhaseIds(s.Phases()) ensures r !in MetricsOf(t.Phases()) {}
  }

  lemma AddKeepsAbsent(db: Db, s: Sink, t: Sink)
    requires Disjoint(s, t) && Absent(db, s)
    ensures Absent(Add(db, t), s)
  {
    forall p | p in s.Phases() ensures p.id !in PhaseIds(t.Phases()) {}
    forall r: MetricRow | r.phaseId in PhaseIds(s.Phases()) ensures r !in MetricsOf(t.Phases()) {}
  }

  /** The history's invariant: the store is the initial one plus the winners,
      whole; every other payload left no trace. */
  ghost predicate Accounted(db0: Db, db: Db, u: set<Sink>, w: seq<Sink>) {
    && Valid(db)
    && SameResults(db, AddAll(db0, w))
    && NoDuplicates(w)
    && (forall s | s in w :: s in u)
    && (forall s | s in u :: if s in w then Present(db, s) else Absent(db, s))
  }

  lemma SameResultsSamePayloads(a: Db, b: Db, s: Sink)
    requires SameResults(a, b)
    ensures Present(a, s) <==> Present(b, s)
    ensures Absent(a, s) <==> Absent(b, s)
  {
  }

  /** Opening or closing a batch row keeps the constraints and touches no result. */
  lemma BatchEventKeeps(db: Db, e: Event)
    requires Valid(db) && !e.Child?
    ensures Valid(After(db, Exec(db, e))) && SameResults(db, After(db, Exec(db, e)))
  {
    match e
    case Init(id, workflowId, config) => InsertBatchKeepsValid(db, id, workflowId, config);
    case Finalize(id, status, at) => FinalizeBatchKeepsValid(db, id, status, at);
  }

  lemma InsertBatchKeepsValid(db: Db, id: Uuid, workflowId: string, config: string)
    requires Valid(db)
    ensures Valid(After(db, InsertBatchRun(db, id, workflowId, config)))
    ensures SameResults(db, After(db, InsertBatchRun(db, id, workflowId, config)))
  {
    if !WorkflowTaken(db, workflowId) && id !in db.batches {
      var batches := db.batches[id := BatchRow(workflowId, Running, None, config)];
      assert After(db, InsertBatchRun(db, id, workflowId, config)) == db.(batches := batches);
      assert forall b | b in db.batches :: batches[b] == db.batches[b];
    }
  }

  /** Closing a batch changes the status and the time of its own row only. */
  lemma FinalizeBatchKeepsValid(db: Db, id: Uuid, status: Status, at: Instant)
    requires Valid(db)
    ensures Valid(After(db, FinalizeBatchRun(db, id, status, at)))
    ensures SameResults(db, After(db, FinalizeBatchRun(db, id, status, at)))
  {
    if id in db.batches && status != Skipped {
      var batches := db.batches[id := db.batches[id].(status := status, finishedAt := Some(at))];
      assert After(db, FinalizeBatchRun(db, id, status, at)) == db.(batches := batches);
      assert batches.Keys == db.batches.Keys;
      assert forall b | b in batches :: batches[b].workflowId == db.batches[b].workflowId;
      assert forall b | b in batches :: batches[b].status != Skipped;
    }
  }

  lemma AddKeepsSame(a: Db, b: Db, s: Sink)
    requires SameResults(a, b)
    ensures SameResults(Add(a, s), Add(b, s))
  {
  }

  /** Whatever is attempted, in whatever order and however often: the result
      tables hold exactly the winners' rows, each payload being wholly there
      (once) or wholly missing. */
  lemma {:induction false} ExactlyOnce(db0: Db, u: set<Sink>, h: seq<Attempt>)
    requires Universe(db0, u) && Within(h, u)
    ensures Accounted(db0, Replay(db0, h), u, Winners(db0, h))
  {
    if h != [] {
      var earlier, a := h[..|h| - 1], h[|h| - 1];
      ExactlyOnce(db0, u, earlier);
      var db, w := Replay(db0, earlier), Winners(db0, earlier);
      if a.fate != Dropped {
        if a.event.Child? {
          ChildAccounted(db0, db, u, w, a);
        } else {
          BatchEventKeeps(db, a.event);
          forall s | s in u { SameResultsSamePayloads(db, Replay(db0, h), s); }
        }
      }
    }
  }

  lemma ChildAccounted(db0: Db, db: Db, u: set<Sink>, w: seq<Sink>, a: Attempt)
    requires Universe(db0, u) && Accounted(db0, db, u, w)
    requires a.event.Child? && a.fate != Dropped && a.event.sink in u
    ensures Accounted(db0, Deliver(db, a), u, if Wins(db, w, a) then w + [a.event.sink] else w)
  {
    var s := a.event.sink;
    if s in w {
      PersistRepeated(db, s);
    } else if s.batchId !in db.batches {
      PersistUnopened(db, s);
    } else if Beaten(db, s) {
      PersistBeaten(db, s);
    } else {
      PersistFresh(db, s);
      PersistKeepsValid(db, s);
      WinAccounted(db0, db, u, w, s);
    }
  }

  /** A win leaves its own payload present and every other one as it was. */
  lemma WinSettles(db0: Db, db: Db, u: set<Sink>, w: seq<Sink>, s: Sink, t: Sink)
    requires Universe(db0, u) && Accounted(db0, db, u, w)
    requires s in u && t in u && Present(Add(db, s), s)
    ensures if t in w + [s] then Present(Add(db, s), t) else Absent(Add(db, s), t)
  {
    assert t in w + [s] <==> t in w || t == s;
    if t != s {
      if t in w {
        AddKeepsPresent(db, t, s);
      } else {
        AddKeepsAbsent(db, t, s);
      }
    }
  }

  lemma WinAccounted(db0: Db, db: Db, u: set<Sink>, w: seq<Sink>, s: Sink)
    requires Universe(db0, u) && Accounted(db0, db, u, w)
    requires s in u && s !in w && Valid(Add(db, s)) && Present(Add(db, s), s)
    ensures Accounted(db0, Add(db, s), u, w + [s])
  {
    assert (w + [s])[..|w|] == w;
    AddKeepsSame(db, AddAll(db0, w), s);
    assert NoDuplicates(w + [s]);
    forall t | t in u ensures if t in w + [s] then Present(Add(db, s), t) else Absent(Add(db, s), t) {
      WinSettles(db0, db, u, w, s, t);
    }
  }

  /** After any history, the phases of every payload that won are recorded field by
      field as they were sent, and so is its machine. */
  lemma WinnersAreRecorded(db0: Db, u: set<Sink>, h: seq<Attempt>, s: Sink, p: PhaseResult)
    requires Universe(db0, u) && Within(h, u) && s in Winners(db0, h)
    ensures MachineRecorded(Replay(db0, h), s)
    ensures p in s.Phases() ==> Recorded(Replay(db0, h), s, p)
  {
    ExactlyOnce(db0, u, h);
    PresentIsRecorded(Replay(db0, h), s, p);
  }

  // ---- First commit wins ---------------------------------------------------

  lemma RivalsExclude(db: Db, s: Sink, t: Sink)
    requires Valid(db) && Disjoint(s, t) && Rivals(s, t)
    ensures !(Present(db, s) && Present(db, t))
  {
  }

  lemma {:induction false} WinnersGrow(db: Db, h: seq<Attempt>, n: nat)
    requires n <= |h|
    ensures Winners(db, h[..n]) <= Winners(db, h)
    decreases |h|
  {
    if n < |h| {
      assert h[..|h| - 1][..n] == h[..n];
      WinnersGrow(db, h[..|h| - 1], n);
    } else {
      assert h[..n] == h;
    }
  }

  lemma WinnerStays(db: Db, h: seq<Attempt>, n: nat)
    requires n < |h| && Wins(Replay(db, h[..n]), Winners(db, h[..n]), h[n])
    ensures h[n].event.sink in Winners(db, h)
  {
    assert h[..n + 1][..n] == h[..n] && h[..n + 1][n] == h[n];
    assert h[n].event.sink in Winners(db, h[..n + 1]);
    WinnersGrow(db, h, n + 1);
  }

  lemma WinnerExcludes(db: Db, u: set<Sink>, w: seq<Sink>, db0: Db, s: Sink, rival: Sink)
    requires Universe(db0, u) && Accounted(db0, db, u, w) && s in w && rival in u && rival != s && Rivals(rival, s)
    ensures Absent(db, rival)
  {
    RivalsExclude(db, rival, s);
  }

  /** Once a payload has won, it is there whole after every continuation, and
      nothing of a rival for the same (batch, name) ever is. */
  lemma FirstCommitWins(db0: Db, u: set<Sink>, h: seq<Attempt>, n: nat, rival: Sink)
    requires Universe(db0, u) && Within(h, u)
    requires n < |h| && Wins(Replay(db0, h[..n]), Winners(db0, h[..n]), h[n])
    ensures Present(Replay(db0, h), h[n].event.sink)
    ensures rival in u && rival != h[n].event.sink && Rivals(rival, h[n].event.sink) ==>
              Absent(Replay(db0, h), rival)
  {
    WinnerStays(db0, h, n);
    ExactlyOnce(db0, u, h);
    if rival in u && rival != h[n].event.sink && Rivals(rival, h[n].event.sink) {
      WinnerExcludes(Replay(db0, h), u, Winners(db0, h), db0, h[n].event.sink, rival);
    }
  }

  // ---- Confluence ------------------------------------------------------------

  lemma UnionCommutes<K, V>(m: map<K, V>, a: map<K, V>, b: map<K, V>)
    requires a.Keys !! b.Keys
    ensures m + a + b == m + b + a
  {
  }

  lemma AddTables(db: Db, s: Sink)
    ensures Add(db, s).batches == db.batches
    ensures Add(db, s).machines == if s.PhaseSink? then db.machines else db.machines[s.result.machineId := FinalRow(s)]
    ensures Add(db, s).phases == db.phases + RowsOf(s, s.Phases())
    ensures Add(db, s).metrics == db.metrics + MetricsOf(s.Phases())
  {
  }

  lemma PhasesCommute(db: Db, s: Sink, t: Sink)
    requires Disjoint(s, t)
    ensures Add(Add(db, s), t).phases == Add(Add(db, t), s).phases
  {
    AddTables(db, s);
    AddTables(db, t);
    AddTables(Add(db, s), t);
    AddTables(Add(db, t), s);
    UnionCommutes(db.phases, RowsOf(s, s.Phases()), RowsOf(t, t.Phases()));
  }

  lemma MachinesCommute(db: Db, s: Sink, t: Sink)
    requires Disjoint(s, t)
    ensures Add(Add(db, s), t).machines == Add(Add(db, t), s).machines
  {
  }

  lemma MetricsCommute(db: Db, s: Sink, t: Sink)
    ensures Add(Add(db, s), t).metrics == Add(Add(db, t), s).metrics
  {
  }

  lemma AddCommutes(db: Db, s: Sink, t: Sink)
    requires Disjoint(s, t)
    ensures Add(Add(db, s), t) == Add(Add(db, t), s)
  {
    PhasesCommute(db, s, t);
    MachinesCommute(db, s, t);
    MetricsCommute(db, s, t);
    assert Add(Add(db, s), t).batches == Add(Add(db, t), s).batches;
  }

  ghost predicate Commute<D(!new), S>(f: (D, S) -> D, items: seq<S>) {
    forall d, i, j {:trigger f(f(d, items[i]), items[j])} | 0 <= i < j < |items| ::
      f(f(d, items[i]), items[j]) == f(f(d, items[j]), items[i])
  }

  function Without<T>(w: seq<T>, i: nat): seq<T>
    requires i < |w|
  {
    w[..i] + w[i + 1..]
  }

  /** Any of the commuting items may be applied last. */
  lemma {:induction false} FoldMoveLast<D(!new), S>(f: (D, S) -> D, d: D, w: seq<S>, i: nat)
    requires i < |w| && Commute(f, w)
    ensures Fold(f, d, w) == f(Fold(f, d, Without(w, i)), w[i])
  {
    var n := |w| - 1;
    if i == n {
      assert Without(w, i) == w[..n];
    } else {
      FoldMoveLast(f, d, w[..n], i);
      assert Without(w, i)[..n - 1] == Without(w[..n], i);
      var rest := Fold(f, d, Without(w[..n], i));
      assert f(f(rest, w[i]), w[n]) == f(f(rest, w[n]), w[i]);
    }
  }

  lemma {:induction false} FoldPermutes<D(!new), S(!new)>(f: (D, S) -> D, d: D, v: seq<S>, w: seq<S>)
    requires NoDuplicates(v) && NoDuplicates(w) && Commute(f, w)
    requires forall s :: s in v <==> s in w
    ensures Fold(f, d, v) == Fold(f, d, w)
  {
    if v == [] {
      assert forall k | 0 <= k < |w| :: w[k] in w;
    } else {
      var init, last := v[..|v| - 1], v[|v| - 1];
      assert last in w;
      var i :| 0 <= i < |w| && w[i] == last;
      var rest := Without(w, i);
      SameMembersWithout(v, w, i);
      FoldMoveLast(f, d, w, i);
      FoldPermutes(f, d, init, rest);
    }
  }

  lemma SameMembersWithout<S(!new)>(v: seq<S>, w: seq<S>, i: nat)
    requires NoDuplicates(v) && NoDuplicates(w) && i < |w| && v != [] && v[|v| - 1] == w[i]
    requires forall s :: s in v <==> s in w
    ensures forall s :: s in v[..|v| - 1] <==> s in Without(w, i)
    ensures NoDuplicates(Without(w, i))
  {
    var init, last := v[..|v| - 1], v[|v| - 1];
    forall s ensures s in init <==> s in Without(w, i) {
      assert s in v <==> s in init || s == last;
      assert s in w <==> s in Without(w, i) || s == last;
      assert last !in init && last !in Without(w, i);
    }
  }

  /** The payloads some attempt carried to the store. */
  function Delivered(h: seq<Attempt>): set<Sink> {
    set a | a in h && a.event.Child? && a.fate != Dropped :: a.event.sink
  }

  /** All batches are open and no two payloads compete for a (batch, name). */
  ghost predicate Uncontended(db: Db, u: set<Sink>) {
    && (forall s | s in u :: s.batchId in db.batches && !Beaten(db, s))
    && (forall s, t | s in u && t in u && s != t :: !Rivals(s, t))
  }

  lemma {:induction false} BeatenByRival(db: Db, w: seq<Sink>, s: Sink)
    requires s.MachineSink? && !Beaten(db, s) && forall t | t in w :: !Rivals(s, t)
    ensures !Beaten(AddAll(db, w), s)
  {
    if w != [] {
      var init, last := w[..|w| - 1], w[|w| - 1];
      BeatenByRival(db, init, s);
      assert last in w;
    }
  }

  lemma DeliverKeepsBatches(db: Db, a: Attempt)
    requires Valid(db)
    ensures Valid(Deliver(db, a)) && db.batches.Keys <= Deliver(db, a).batches.Keys
  {
    match a.event
    case Child(s) => PersistKeepsValid(db, s);
    case Init(_, _, _) => BatchEventKeeps(db, a.event);
    case Finalize(_, _, _) => BatchEventKeeps(db, a.event);
  }

  lemma {:induction false} BatchesStay(db: Db, h: seq<Attempt>)
    requires Valid(db)
    ensures Valid(Replay(db, h)) && db.batches.Keys <= Replay(db, h).batches.Keys
  {
    if h != [] {
      BatchesStay(db, h[..|h| - 1]);
      DeliverKeepsBatches(Replay(db, h[..|h| - 1]), h[|h| - 1]);
    }
  }

  lemma {:induction false} WinnersAreDelivered(db: Db, u: set<Sink>, h: seq<Attempt>)
    requires Universe(db, u) && Within(h, u) && Uncontended(db, u)
    ensures forall s :: s in Winners(db, h) <==> s in Delivered(h)
  {
    if h != [] {
      var earlier, a := h[..|h| - 1], h[|h| - 1];
      assert h == earlier + [a];
      WinnersAreDelivered(db, u, earlier);
      var db1, w := Replay(db, earlier), Winners(db, earlier);
      ExactlyOnce(db, u, earlier);
      BatchesStay(db, earlier);
      if a.event.Child? && a.fate != Dropped && a.event.sink !in w {
        if a.event.sink.MachineSink? {
          BeatenByRival(db, w, a.event.sink);
        }
        assert Wins(db1, w, a);
      }
    }
  }

  /** The order, repetition and interleaving of deliveries do not matter: the
      delivered payloads alone determine the result tables. */
  lemma Confluence(db: Db, u: set<Sink>, h: seq<Attempt>, k: seq<Attempt>)
    requires Universe(db, u) && Uncontended(db, u) && Within(h, u) && Within(k, u)
    requires Delivered(h) == Delivered(k)
    ensures SameResults(Replay(db, h), Replay(db, k))
  {
    ExactlyOnce(db, u, h);
    ExactlyOnce(db, u, k);
    WinnersAreDelivered(db, u, h);
    WinnersAreDelivered(db, u, k);
    forall d, s, t | s in u && t in u && s != t ensures Add(Add(d, s), t) == Add(Add(d, t), s) {
      AddCommutes(d, s, t);
    }
    FoldPermutes(Add, db, Winners(db, h), Winners(db, k));
  }

  /** The attempts on batch rows, in order. */
  function BatchAttempts(h: seq<Attempt>): seq<Attempt> {
    if h == [] then []
    else BatchAttempts(h[..|h| - 1]) + if h[|h| - 1].event.Child? then [] else [h[|h| - 1]]
  }

  lemma BatchEventLocal(a: Db, b: Db, e: Event)
    requires a.batches == b.batches && !e.Child?
    ensures After(a, Exec(a, e)).batches == After(b, Exec(b, e)).batches
  {
    match e
    case Init(_, workflowId, _) => assert WorkflowTaken(a, workflowId) == WorkflowTaken(b, workflowId);
    case Finalize(_, _, _) =>
  }

  lemma ChildLeavesBatches(db: Db, a: Attempt)
    requires Valid(db) && a.event.Child?
    ensures Deliver(db, a).batches == db.batches
  {
    PersistKeepsValid(db, a.event.sink);
  }

  lemma BatchAttemptLocal(a: Db, b: Db, t: Attempt)
    requires a.batches == b.batches && !t.event.Child?
    ensures Deliver(a, t).batches == Deliver(b, t).batches
  {
    BatchEventLocal(a, b, t.event);
  }

  /** Result deliveries never disturb the batch rows: those depend only on the
      attempts to open and close batches. */
  lemma {:induction false} BatchTableApart(db: Db, h: seq<Attempt>)
    requires Valid(db)
    ensures Replay(db, h).batches == Replay(db, BatchAttempts(h)).batches
  {
    if h != [] {
      var earlier, a := h[..|h| - 1], h[|h| - 1];
      var k := BatchAttempts(earlier);
      BatchTableApart(db, earlier);
      BatchesStay(db, earlier);
      if a.event.Child? {
        ChildLeavesBatches(Replay(db, earlier), a);
        assert k + [] == k;
      } else {
        BatchAttemptLocal(Replay(db, earlier), Replay(db, k), a);
        assert (k + [a])[..|k|] == k;
      }
    }
  }

  /** The status and time of the last closing of a batch that reached the store; one
      with the status `skipped` is refused by the check constraint. */
  function LastClose(h: seq<Attempt>, id: Uuid): Option<(Status, Instant)> {
    if h == [] then None
    else
      var a := h[|h| - 1];
      if a.fate != Dropped && a.event.Finalize? && a.event.batchId == id && a.event.status != Skipped
      then Some((a.event.status, a.event.at))
      else LastClose(h[..|h| - 1], id)
  }

  function ClosedBy(row: BatchRow, close: Option<(Status, Instant)>): BatchRow {
    match close
    case None => row
    case Some((status, at)) => row.(status := status, finishedAt := Some(at))
  }

  lemma InitLeavesRow(db: Db, b: Uuid, workflowId: string, config: string, id: Uuid)
    requires id in db.batches
    ensures var db' := After(db, InsertBatchRun(db, b, workflowId, config));
            id in db'.batches && db'.batches[id] == db.batches[id]
  {
  }

  lemma FinalizeSetsRow(db: Db, b: Uuid, status: Status, at: Instant, id: Uuid)
    requires id in db.batches
    ensures var db' := After(db, FinalizeBatchRun(db, b, status, at));
            && id in db'.batches
            && db'.batches[id] ==
               ClosedBy(db.batches[id], if b == id && status != Skipped then Some((status, at)) else None)
  {
  }

  lemma DeliverBatchRow(db: Db, a: Attempt, id: Uuid)
    requires id in db.batches && !a.event.Child?
    ensures id in Deliver(db, a).batches
    ensures Deliver(db, a).batches[id] == ClosedBy(db.batches[id], LastClose([a], id))
  {
    assert [a][..0] == [] && LastClose([], id) == None;
    match a.event
    case Init(b, workflowId, config) => InitLeavesRow(db, b, workflowId, config, id);
    case Finalize(b, status, at) => FinalizeSetsRow(db, b, status, at, id);
  }

  /** Once a batch is open, its row is the opened one with the last closing that
      reached the store: reopenings, repeated or late, and result deliveries never
      change it, and of several closings the last one stands. */
  lemma {:induction false} LastCloseWins(db: Db, h: seq<Attempt>, id: Uuid)
    requires Valid(db) && id in db.batches
    ensures id in Replay(db, h).batches
    ensures Replay(db, h).batches[id] == ClosedBy(db.batches[id], LastClose(h, id))
  {
    if h != [] {
      var earlier, a := h[..|h| - 1], h[|h| - 1];
      LastCloseWins(db, earlier, id);
      BatchesStay(db, earlier);
      if a.event.Child? {
        ChildLeavesBatches(Replay(db, earlier), a);
      } else {
        DeliverBatchRow(Replay(db, earlier), a, id);
        assert [a][..0] == [];
      }
    }
  }

  /** With the same openings and closings as well, the stores are equal. */
  lemma FullConfluence(db: Db, u: set<Sink>, h: seq<Attempt>, k: seq<Attempt>)
    requires Universe(db, u) && Uncontended(db, u) && Within(h, u) && Within(k, u)
    requires Delivered(h) == Delivered(k) && BatchAttempts(h) == BatchAttempts(k)
    ensures Replay(db, h) == Replay(db, k)
  {
    Confluence(db, u, h, k);
    BatchTableApart(db, h);
    BatchTableApart(db, k);
  }
}
