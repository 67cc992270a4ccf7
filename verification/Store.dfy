/** The result store: its tables, their constraints, the SQL statements the
    repository issues, and the transactions the persistence activities run. */
module Store {

  import opened Wrappers
  import opened Model

  datatype BatchRow = BatchRow(workflowId: string, status: Status, finishedAt: Option<Instant>, config: string)

  datatype MachineRow = MachineRow(
    batchId: Uuid, name: string, host: string, status: Status, finishedAt: Option<Instant>)

  datatype PhaseRow = PhaseRow(
    batchId: Uuid, machineId: Option<Uuid>, phase: string, status: Status,
    details: Details, startedAt: Instant, finishedAt: Instant)

  datatype MetricRow = MetricRow(phaseId: Uuid, name: string, value: real, unit: string)

  /** Tables keyed by their primary keys; metric rows have no business key. */
  datatype Db = Db(
    batches: map<Uuid, BatchRow>,
    machines: map<Uuid, MachineRow>,
    phases: map<Uuid, PhaseRow>,
    metrics: multiset<MetricRow>)

  /** The migration's unique, foreign-key and check constraints. */
  ghost predicate Valid(db: Db) {
    && (forall b | b in db.batches :: db.batches[b].status != Skipped)
    && (forall b, c | b in db.batches && c in db.batches && b != c ::
          db.batches[b].workflowId != db.batches[c].workflowId)
    && (forall m | m in db.machines :: db.machines[m].status != Skipped && db.machines[m].batchId in db.batches)
    && (forall m, k | m in db.machines && k in db.machines && m != k ::
          (db.machines[m].batchId, db.machines[m].name) != (db.machines[k].batchId, db.machines[k].name))
    && (forall p | p in db.phases ::
          && db.phases[p].status != Running
          && db.phases[p].batchId in db.batches
          && (db.phases[p].machineId.Some? ==> db.phases[p].machineId.value in db.machines))
    && (forall r | r in db.metrics :: r.phaseId in db.phases)
  }

  datatype Violation = PrimaryKey | ForeignKey | Check

  type Txn = Result<Db, Violation>

  /** The state after a transaction: an abort rolls everything back. */
  function After(db: Db, t: Txn): Db {
    match t case Success(db') => db' case Failure(_) => db
  }

  // ---- Statements ------------------------------------------------------

  predicate WorkflowTaken(db: Db, workflowId: string) {
    exists b | b in db.batches :: db.batches[b].workflowId == workflowId
  }

  predicate NameTaken(db: Db, batchId: Uuid, name: string) {
    exists m | m in db.machines :: db.machines[m].batchId == batchId && db.machines[m].name == name
  }

  /** `ON CONFLICT (workflow_id) DO NOTHING`: only that index arbitrates. */
  function InsertBatchRun(db: Db, id: Uuid, workflowId: string, config: string): Txn {
    if WorkflowTaken(db, workflowId) then Success(db)
    else if id in db.batches then Failure(PrimaryKey)
    else Success(db.(batches := db.batches[id := BatchRow(workflowId, Running, None, config)]))
  }

  /** `ON CONFLICT (batch_id, name) DO NOTHING`: only that index arbitrates. */
  function InsertMachineRun(db: Db, id: Uuid, batchId: Uuid, name: string, host: string): Txn {
    if NameTaken(db, batchId, name) then Success(db)
    else if id in db.machines then Failure(PrimaryKey)
    else if batchId !in db.batches then Failure(ForeignKey)
    else Success(db.(machines := db.machines[id := MachineRow(batchId, name, host, Running, None)]))
  }

  function InsertPhaseResult(db: Db, id: Uuid, row: PhaseRow): Txn {
    if row.status == Running then Failure(Check)
    else if id in db.phases then Failure(PrimaryKey)
    else if row.batchId !in db.batches then Failure(ForeignKey)
    else if row.machineId.Some? && row.machineId.value !in db.machines then Failure(ForeignKey)
    else Success(db.(phases := db.phases[id := row]))
  }

  function MetricRows(phaseId: Uuid, metrics: seq<Metric>): multiset<MetricRow> {
    multiset(seq(|metrics|, i requires 0 <= i < |metrics| =>
      MetricRow(phaseId, metrics[i].name, metrics[i].value, metrics[i].unit)))
  }

  function InsertMetrics(db: Db, phaseId: Uuid, metrics: seq<Metric>): Txn {
    if metrics == [] then Success(db)
    else if phaseId !in db.phases then Failure(ForeignKey)
    else Success(db.(metrics := db.metrics + MetricRows(phaseId, metrics)))
  }

  function FinalizeMachineRun(db: Db, id: Uuid, status: Status, at: Instant): Txn {
    if id !in db.machines then Success(db)
    else if status == Skipped then Failure(Check)
    else Success(db.(machines := db.machines[id := db.machines[id].(status := status, finishedAt := Some(at))]))
  }

  function FinalizeBatchRun(db: Db, id: Uuid, status: Status, at: Instant): Txn {
    if id !in db.batches then Success(db)
    else if status == Skipped then Failure(Check)
    else Success(db.(batches := db.batches[id := db.batches[id].(status := status, finishedAt := Some(at))]))
  }

  // ---- Payloads and their transactions ----------------------------------

  /** What a child workflow hands over: one machine's results, or the phases of
      a cross-host workflow under a label. */
  datatype Sink =
    | MachineSink(batchId: Uuid, result: MachineResult)
    | PhaseSink(batchId: Uuid, origin: string, phaseList: seq<PhaseResult>)
  {
    function Phases(): seq<PhaseResult> {
      if MachineSink? then result.phases else phaseList
    }

    /** The phase_result row written for one phase. */
    function Row(p: PhaseResult): PhaseRow {
      if MachineSink? then
        PhaseRow(batchId, Some(result.machineId), p.phase, p.status, p.details, p.startedAt, p.finishedAt)
      else
        PhaseRow(batchId, None, origin + "." + p.phase, p.status, p.details, p.startedAt, p.finishedAt)
    }
  }

  function PersistPhase(db: Db, s: Sink, p: PhaseResult): Txn {
    match InsertPhaseResult(db, p.id, s.Row(p))
    case Failure(v) => Failure(v)
    case Success(db') => InsertMetrics(db', p.id, p.metrics)
  }

  function PersistPhases(db: Db, s: Sink, ps: seq<PhaseResult>): Txn {
    if ps == [] then Success(db)
    else
      match PersistPhases(db, s, ps[..|ps| - 1])
      case Failure(v) => Failure(v)
      case Success(db') => PersistPhase(db', s, ps[|ps| - 1])
  }

  /** The transaction of `persist_machine_results` or `persist_batch_phases`. */
  function Persist(db: Db, s: Sink): Txn {
    if s.PhaseSink? then PersistPhases(db, s, s.phaseList)
    else
      var r := s.result;
      match InsertMachineRun(db, r.machineId, s.batchId, r.machine.name, r.machine.host)
      case Failure(v) => Failure(v)
      case Success(db1) =>
        match PersistPhases(db1, s, r.phases)
        case Failure(v) => Failure(v)
        case Success(db2) => FinalizeMachineRun(db2, r.machineId, r.status, r.finishedAt)
  }

  // ---- What a commit writes ---------------------------------------------

  predicate DistinctIds(ps: seq<PhaseResult>) {
    forall i, j | 0 <= i < j < |ps| :: ps[i].id != ps[j].id
  }

  function PhaseIds(ps: seq<PhaseResult>): set<Uuid> {
    set p | p in ps :: p.id
  }

  function RowsOf(s: Sink, ps: seq<PhaseResult>): (rows: map<Uuid, PhaseRow>)
    ensures rows.Keys == PhaseIds(ps)
  {
    if ps == [] then map[]
    else
      var init, last := ps[..|ps| - 1], ps[|ps| - 1];
      assert ps == init + [last];
      RowsOf(s, init)[last.id := s.Row(last)]
  }

  function MetricsOf(ps: seq<PhaseResult>): (rows: multiset<MetricRow>)
    ensures forall r | r in rows :: r.phaseId in PhaseIds(ps)
  {
    if ps == [] then multiset{}
    else
      var init, last := ps[..|ps| - 1], ps[|ps| - 1];
      assert last in ps && forall p | p in init :: p in ps;
      MetricsOf(init) + MetricRows(last.id, last.metrics)
  }

  lemma {:induction false} RowsOfAt(s: Sink, ps: seq<PhaseResult>, p: PhaseResult)
    requires DistinctIds(ps) && p in ps
    ensures RowsOf(s, ps)[p.id] == s.Row(p)
  {
    var init, last := ps[..|ps| - 1], ps[|ps| - 1];
    assert ps == init + [last];
    if p in init {
      RowsOfAt(s, init, p);
    }
  }

  predicate RowInsertable(db: Db, s: Sink, p: PhaseResult) {
    && p.status != Running
    && p.id !in db.phases
    && s.batchId in db.batches
    && (s.MachineSink? ==> s.result.machineId in db.machines)
  }

  /** Every phase row can be inserted: fresh, distinct, and with its parents there. */
  predicate Insertable(db: Db, s: Sink, ps: seq<PhaseResult>) {
    DistinctIds(ps) && forall p | p in ps :: RowInsertable(db, s, p)
  }

  function WithPhases(db: Db, s: Sink, ps: seq<PhaseResult>): Db {
    db.(phases := db.phases + RowsOf(s, ps), metrics := db.metrics + MetricsOf(ps))
  }

  lemma PersistPhaseWrites(db: Db, s: Sink, p: PhaseResult)
    ensures PersistPhase(db, s, p).Success? <==> RowInsertable(db, s, p)
    ensures PersistPhase(db, s, p).Success? ==>
              PersistPhase(db, s, p).value ==
              db.(phases := db.phases[p.id := s.Row(p)], metrics := db.metrics + MetricRows(p.id, p.metrics))
  {
    if p.metrics == [] {
      assert MetricRows(p.id, p.metrics) == multiset{};
    }
  }

  lemma DistinctSnoc(init: seq<PhaseResult>, last: PhaseResult)
    ensures DistinctIds(init + [last]) <==> DistinctIds(init) && last.id !in PhaseIds(init)
  {
    var ps := init + [last];
    assert forall i | 0 <= i < |init| :: ps[i] == init[i];
    assert ps[|init|] == last;
    if DistinctIds(init) && last.id !in PhaseIds(init) {
      forall i | 0 <= i < |init| ensures init[i].id != last.id {
        assert init[i].id in PhaseIds(init);
      }
    }
  }

  lemma InsertableSnoc(db: Db, s: Sink, init: seq<PhaseResult>, last: PhaseResult)
    ensures Insertable(db, s, init + [last]) <==>
            Insertable(db, s, init) && RowInsertable(WithPhases(db, s, init), s, last)
  {
    DistinctSnoc(init, last);
    assert forall p :: p in init + [last] <==> p in init || p == last;
  }

  /** The row-by-row inserts succeed exactly on insertable phases, and then add
      exactly their rows and metrics. */
  lemma {:induction false} PersistPhasesWrites(db: Db, s: Sink, ps: seq<PhaseResult>)
    ensures PersistPhases(db, s, ps).Success? <==> Insertable(db, s, ps)
    ensures Insertable(db, s, ps) ==> PersistPhases(db, s, ps).value == WithPhases(db, s, ps)
  {
    if ps == [] {
      assert WithPhases(db, s, ps) == db;
    } else {
      var init, last := ps[..|ps| - 1], ps[|ps| - 1];
      PersistPhasesWrites(db, s, init);
      PersistPhaseWrites(WithPhases(db, s, init), s, last);
      InsertableSnoc(db, s, init, last);
      assert ps == init + [last];
      WithPhasesSnoc(db, s, ps);
    }
  }

  lemma UnionUpdate<K, V>(m: map<K, V>, n: map<K, V>, k: K, v: V)
    ensures (m + n)[k := v] == m + n[k := v]
  {
  }

  lemma WithPhasesSnoc(db: Db, s: Sink, ps: seq<PhaseResult>)
    requires ps != []
    ensures var init, last := ps[..|ps| - 1], ps[|ps| - 1];
            var db1 := WithPhases(db, s, init);
            WithPhases(db, s, ps) ==
            db1.(phases := db1.phases[last.id := s.Row(last)],
                 metrics := db1.metrics + MetricRows(last.id, last.metrics))
  {
    var init, last := ps[..|ps| - 1], ps[|ps| - 1];
    UnionUpdate(db.phases, RowsOf(s, init), last.id, s.Row(last));
    var m1, m2 := MetricsOf(init), MetricRows(last.id, last.metrics);
    assert MetricsOf(ps) == m1 + m2;
    assert db.metrics + (m1 + m2) == (db.metrics + m1) + m2;
  }

  // ---- Committed states keep the constraints ----------------------------

  lemma WithPhasesKeepsValid(db: Db, s: Sink, ps: seq<PhaseResult>)
    requires Valid(db) && Insertable(db, s, ps)
    ensures Valid(WithPhases(db, s, ps))
  {
    var db' := WithPhases(db, s, ps);
    forall k | k in db'.phases
      ensures db'.phases[k].status != Running && db'.phases[k].batchId in db.batches
      ensures db'.phases[k].machineId.Some? ==> db'.phases[k].machineId.value in db.machines
    {
      if k in PhaseIds(ps) {
        var p :| p in ps && p.id == k;
        RowsOfAt(s, ps, p);
      }
    }
  }

  /** The store when the phase inserts begin. */
  function Opened(db: Db, s: Sink): Txn {
    if s.PhaseSink? then Success(db)
    else InsertMachineRun(db, s.result.machineId, s.batchId, s.result.machine.name, s.result.machine.host)
  }

  lemma InsertMachineKeepsValid(db: Db, id: Uuid, batchId: Uuid, name: string, host: string)
    requires Valid(db) && InsertMachineRun(db, id, batchId, name, host).Success?
    ensures var db' := InsertMachineRun(db, id, batchId, name, host).value;
            && Valid(db') && db'.batches == db.batches
            && (db' == db ||
                (id !in db.machines && db'.machines == db.machines[id := MachineRow(batchId, name, host, Running, None)]))
  {
  }

  lemma OpenedKeepsValid(db: Db, s: Sink)
    requires Valid(db) && Opened(db, s).Success?
    ensures Valid(Opened(db, s).value) && Opened(db, s).value.batches == db.batches
    ensures forall m | m in Opened(db, s).value.machines ::
              (s.MachineSink? && m == s.result.machineId) ||
              (m in db.machines && Opened(db, s).value.machines[m] == db.machines[m])
  {
    if s.MachineSink? {
      InsertMachineKeepsValid(db, s.result.machineId, s.batchId, s.result.machine.name, s.result.machine.host);
    }
  }

  /** A transaction either aborts or writes its phases and closes its machine row. */
  lemma PersistWrites(db: Db, s: Sink)
    ensures Persist(db, s).Success? <==>
            && Opened(db, s).Success?
            && Insertable(Opened(db, s).value, s, s.Phases())
            && (s.MachineSink? && s.result.machineId in Opened(db, s).value.machines ==> s.result.status != Skipped)
    ensures Persist(db, s).Success? ==>
              var db2 := WithPhases(Opened(db, s).value, s, s.Phases());
              Persist(db, s) ==
              if s.PhaseSink? then Success(db2)
              else FinalizeMachineRun(db2, s.result.machineId, s.result.status, s.result.finishedAt)
  {
    if Opened(db, s).Success? {
      PersistPhasesWrites(Opened(db, s).value, s, s.Phases());
    }
  }

  /** Machine rows may change whatever the constraints do not speak of. */
  lemma RewrittenKeepsValid(db: Db, machines: map<Uuid, MachineRow>)
    requires Valid(db) && machines.Keys == db.machines.Keys
    requires forall m | m in machines :: machines[m].status != Skipped
    requires forall m | m in machines ::
               machines[m].batchId == db.machines[m].batchId && machines[m].name == db.machines[m].name
    ensures Valid(db.(machines := machines))
  {
    forall m, k | m in machines && k in machines && m != k
      ensures (machines[m].batchId, machines[m].name) != (machines[k].batchId, machines[k].name)
    {
      assert (db.machines[m].batchId, db.machines[m].name) != (db.machines[k].batchId, db.machines[k].name);
    }
  }

  lemma FinalizeMachineKeepsValid(db: Db, id: Uuid, status: Status, at: Instant)
    requires Valid(db)
    ensures Valid(After(db, FinalizeMachineRun(db, id, status, at)))
    ensures After(db, FinalizeMachineRun(db, id, status, at)).batches == db.batches
  {
    if id in db.machines && status != Skipped {
      RewrittenKeepsValid(db, db.machines[id := db.machines[id].(status := status, finishedAt := Some(at))]);
    }
  }

  /** Every transaction leaves the constraints intact and the batch rows alone. */
  lemma PersistKeepsValid(db: Db, s: Sink)
    requires Valid(db)
    ensures Valid(After(db, Persist(db, s)))
    ensures After(db, Persist(db, s)).batches == db.batches
  {
    PersistWrites(db, s);
    if Persist(db, s).Success? {
      OpenedKeepsValid(db, s);
      var db2 := WithPhases(Opened(db, s).value, s, s.Phases());
      WithPhasesKeepsValid(Opened(db, s).value, s, s.Phases());
      if s.MachineSink? {
        FinalizeMachineKeepsValid(db2, s.result.machineId, s.result.status, s.result.finishedAt);
      }
    }
  }

  /** Of the machine rows a commit changes only its own, and that to its final status. */
  lemma PersistMachines(db: Db, s: Sink)
    requires Persist(db, s).Success?
    ensures var before, rows := Opened(db, s).value.machines, Persist(db, s).value.machines;
            forall m | m in rows ::
              m in before && (rows[m] == before[m] || (s.MachineSink? && rows[m].status == s.result.status))
  {
    PersistWrites(db, s);
  }

  /** No committed machine row is `running` unless its payload says so. */
  lemma PersistLeavesNoneRunning(db: Db, s: Sink)
    requires Valid(db) && NoneRunning(db) && (s.MachineSink? ==> s.result.status != Running)
    ensures NoneRunning(After(db, Persist(db, s)))
  {
    PersistWrites(db, s);
    if Persist(db, s).Success? {
      PersistMachines(db, s);
      OpenedKeepsValid(db, s);
      if s.MachineSink? {
        OwnRowFinal(db, s);
      }
    }
  }

  lemma OwnRowFinal(db: Db, s: Sink)
    requires Persist(db, s).Success? && s.MachineSink?
    ensures s.result.machineId in Persist(db, s).value.machines ==>
              Persist(db, s).value.machines[s.result.machineId].status == s.result.status
  {
    PersistWrites(db, s);
  }

  predicate NoneRunning(db: Db) {
    forall m | m in db.machines :: db.machines[m].status != Running
  }

  // ---- The three fates of a payload --------------------------------------

  predicate WellFormed(s: Sink) {
    && DistinctIds(s.Phases())
    && (forall p | p in s.Phases() :: p.status != Running)
    && (s.MachineSink? ==> s.result.status == Passed || s.result.status == Failed)
  }

  function FinalRow(s: Sink): MachineRow
    requires s.MachineSink?
  {
    var r := s.result;
    MachineRow(s.batchId, r.machine.name, r.machine.host, r.status, Some(r.finishedAt))
  }

  /** The store with the whole payload written, its machine row final. */
  function Add(db: Db, s: Sink): Db {
    var db1 := if s.PhaseSink? then db else db.(machines := db.machines[s.result.machineId := FinalRow(s)]);
    WithPhases(db1, s, s.Phases())
  }

  /** The payload's machine, phase and metric rows are there, each exactly once
      and exactly as sent. */
  ghost predicate Present(db: Db, s: Sink) {
    && (s.MachineSink? ==> s.result.machineId in db.machines && db.machines[s.result.machineId] == FinalRow(s))
    && (forall p | p in s.Phases() :: p.id in db.phases && db.phases[p.id] == s.Row(p))
    && (forall r: MetricRow | r.phaseId in PhaseIds(s.Phases()) :: db.metrics[r] == MetricsOf(s.Phases())[r])
  }

  /** Nothing of the payload is there. */
  ghost predicate Absent(db: Db, s: Sink) {
    && (s.MachineSink? ==> s.result.machineId !in db.machines)
    && (forall p | p in s.Phases() :: p.id !in db.phases)
    && (forall r: MetricRow | r.phaseId in PhaseIds(s.Phases()) :: r !in db.metrics)
  }

  /** Another payload already holds this machine's (batch, name). */
  predicate Beaten(db: Db, s: Sink) {
    s.MachineSink? && NameTaken(db, s.batchId, s.result.machine.name)
  }

  lemma AddedIsPresent(db: Db, s: Sink)
    requires WellFormed(s) && Absent(db, s)
    ensures Present(Add(db, s), s)
  {
    var ps := s.Phases();
    forall p | p in ps ensures p.id in PhaseIds(ps) && RowsOf(s, ps)[p.id] == s.Row(p) {
      RowsOfAt(s, ps, p);
    }
  }

  lemma OpenedFresh(db: Db, s: Sink)
    requires Valid(db) && WellFormed(s) && Absent(db, s) && !Beaten(db, s) && s.batchId in db.batches
    ensures Opened(db, s).Success? && Insertable(Opened(db, s).value, s, s.Phases())
    ensures s.PhaseSink? ==> Opened(db, s).value == db
    ensures s.MachineSink? ==>
              var row := FinalRow(s).(status := Running, finishedAt := None);
              Opened(db, s).value == db.(machines := db.machines[s.result.machineId := row])
  {
  }

  /** The first delivery of a fresh payload commits and writes all of it. */
  lemma PersistFresh(db: Db, s: Sink)
    requires Valid(db) && WellFormed(s) && Absent(db, s) && !Beaten(db, s) && s.batchId in db.batches
    ensures Persist(db, s) == Success(Add(db, s))
    ensures Present(Add(db, s), s)
  {
    OpenedFresh(db, s);
    PersistPhasesWrites(Opened(db, s).value, s, s.Phases());
    if s.MachineSink? {
      var id, row := s.result.machineId, FinalRow(s);
      assert Opened(db, s).value.machines[id := row] == db.machines[id := row];
    }
    AddedIsPresent(db, s);
  }

  /** A redelivery leaves the store alone, and is rejected on the phase rows'
      primary key exactly when the payload has phases. */
  lemma PersistRepeated(db: Db, s: Sink)
    requires Valid(db) && WellFormed(s) && Present(db, s)
    ensures Persist(db, s) == if s.Phases() == [] then Success(db) else Failure(PrimaryKey)
  {
    if s.MachineSink? {
      assert NameTaken(db, s.batchId, s.result.machine.name);
      assert db.machines[s.result.machineId := FinalRow(s)] == db.machines;
    }
    if s.Phases() != [] {
      FirstPhaseRejected(db, s, s.Phases());
    }
  }

  lemma {:induction false} FirstPhaseRejected(db: Db, s: Sink, ps: seq<PhaseResult>)
    requires ps != [] && ps[0].status != Running && ps[0].id in db.phases
    ensures PersistPhases(db, s, ps) == Failure(PrimaryKey)
  {
    if |ps| == 1 {
      assert ps[..0] == [];
    } else {
      FirstPhaseRejected(db, s, ps[..|ps| - 1]);
    }
  }

  /** A payload whose (batch, name) is held by another leaves the store alone; it
      is rejected exactly when it has phases, whose machine row is then missing. */
  lemma PersistBeaten(db: Db, s: Sink)
    requires Valid(db) && WellFormed(s) && Absent(db, s) && Beaten(db, s)
    ensures Persist(db, s) == if s.Phases() == [] then Success(db) else Failure(ForeignKey)
  {
    if s.Phases() != [] {
      OrphanPhaseRejected(db, s, s.Phases());
    }
  }

  lemma {:induction false} OrphanPhaseRejected(db: Db, s: Sink, ps: seq<PhaseResult>)
    requires ps != [] && ps[0].status != Running && ps[0].id !in db.phases
    requires s.batchId !in db.batches || (s.MachineSink? && s.result.machineId !in db.machines)
    ensures PersistPhases(db, s, ps) == Failure(ForeignKey)
  {
    if |ps| == 1 {
      assert ps[..0] == [];
    } else {
      OrphanPhaseRejected(db, s, ps[..|ps| - 1]);
    }
  }

  /** Before the batch row exists nothing can be written. */
  lemma PersistUnopened(db: Db, s: Sink)
    requires Valid(db) && WellFormed(s) && Absent(db, s) && s.batchId !in db.batches
    ensures Persist(db, s) ==
            if s.PhaseSink? && s.Phases() == [] then Success(db) else Failure(ForeignKey)
  {
    if s.MachineSink? {
      assert !Beaten(db, s);
    } else if s.Phases() != [] {
      OrphanPhaseRejected(db, s, s.Phases());
    }
  }

  // ---- What a reader of the tables finds --------------------------------------

  /** The phase has its row, field by field, and its metric rows. */
  predicate Recorded(db: Db, s: Sink, p: PhaseResult) {
    && p.id in db.phases
    && db.phases[p.id].batchId == s.batchId
    && db.phases[p.id].machineId == (match s
                                     case MachineSink(_, result) => Some(result.machineId)
                                     case PhaseSink(_, _, _) => None)
    && db.phases[p.id].phase == (match s
                                 case MachineSink(_, _) => p.phase
                                 case PhaseSink(_, origin, _) => origin + "." + p.phase)
    && db.phases[p.id].status == p.status
    && db.phases[p.id].details == p.details
    && db.phases[p.id].startedAt == p.startedAt
    && db.phases[p.id].finishedAt == p.finishedAt
    && forall m | m in p.metrics :: MetricRow(p.id, m.name, m.value, m.unit) in db.metrics
  }

  /** The machine has its row, field by field, with its final status. */
  predicate MachineRecorded(db: Db, s: Sink) {
    s.MachineSink? ==>
      && s.result.machineId in db.machines
      && db.machines[s.result.machineId].batchId == s.batchId
      && db.machines[s.result.machineId].name == s.result.machine.name
      && db.machines[s.result.machineId].host == s.result.machine.host
      && db.machines[s.result.machineId].status == s.result.status
      && db.machines[s.result.machineId].finishedAt == Some(s.result.finishedAt)
  }

  lemma MetricRowsHold(id: Uuid, metrics: seq<Metric>, m: Metric)
    requires m in metrics
    ensures MetricRow(id, m.name, m.value, m.unit) in MetricRows(id, metrics)
  {
    var rows := seq(|metrics|, i requires 0 <= i < |metrics| =>
      MetricRow(id, metrics[i].name, metrics[i].value, metrics[i].unit));
    var i :| 0 <= i < |metrics| && metrics[i] == m;
    assert rows[i] in rows;
  }

  lemma {:induction false} MetricsHold(ps: seq<PhaseResult>, p: PhaseResult, m: Metric)
    requires p in ps && m in p.metrics
    ensures MetricRow(p.id, m.name, m.value, m.unit) in MetricsOf(ps)
  {
    var init, last := ps[..|ps| - 1], ps[|ps| - 1];
    assert ps == init + [last];
    if p in init {
      MetricsHold(init, p, m);
    } else {
      MetricRowsHold(p.id, p.metrics, m);
    }
  }

  /** Every phase of a payload that is there is recorded as it was sent. */
  lemma PresentIsRecorded(db: Db, s: Sink, p: PhaseResult)
    requires Present(db, s)
    ensures MachineRecorded(db, s)
    ensures p in s.Phases() ==> Recorded(db, s, p)
  {
    if p in s.Phases() {
      assert p.id in PhaseIds(s.Phases());
      forall m | m in p.metrics ensures MetricRow(p.id, m.name, m.value, m.unit) in db.metrics {
        MetricsHold(s.Phases(), p, m);
      }
    }
  }

  /** So is every phase of a transaction that commits. */
  lemma CommitRecords(db: Db, s: Sink, p: PhaseResult)
    requires Persist(db, s).Success? && p in s.Phases()
    ensures Recorded(Persist(db, s).value, s, p)
  {
    PersistWrites(db, s);
    RowsOfAt(s, s.Phases(), p);
    assert p.id in PhaseIds(s.Phases());
    forall m | m in p.metrics ensures MetricRow(p.id, m.name, m.value, m.unit) in MetricsOf(s.Phases()) {
      MetricsHold(s.Phases(), p, m);
    }
  }
}
