/** The result store as the activities drive it: statements change tables in
    place, and a transaction that fails half way is rolled back. */
module ResultStore {

  import opened Wrappers
  import opened Model
  import opened Store
  import opened Delivery

  /** The exception a transaction raises, if it aborts. */
  function Raised(t: Txn): Option<Violation> {
    match t case Success(_) => None case Failure(v) => Some(v)
  }

  class Database {
    var batches: map<Uuid, BatchRow>
    var machines: map<Uuid, MachineRow>
    var phases: map<Uuid, PhaseRow>
    var metrics: multiset<MetricRow>

    function Contents(): Db
      reads this
    {
      Db(batches, machines, phases, metrics)
    }

    constructor ()
      ensures Contents() == Db(map[], map[], map[], multiset{}) && Valid(Contents())
    {
      batches, machines, phases, metrics := map[], map[], map[], multiset{};
    }

    method Rollback(snapshot: Db)
      modifies this
      ensures Contents() == snapshot
    {
      batches, machines, phases, metrics :=
        snapshot.batches, snapshot.machines, snapshot.phases, snapshot.metrics;
    }

    method ExecInsertBatchRun(id: Uuid, workflowId: string, config: string) returns (error: Option<Violation>)
      modifies this
      ensures error == Raised(InsertBatchRun(old(Contents()), id, workflowId, config))
      ensures Contents() == After(old(Contents()), InsertBatchRun(old(Contents()), id, workflowId, config))
    {
      if WorkflowTaken(Contents(), workflowId) {
        return None;
      }
      if id in batches {
        return Some(PrimaryKey);
      }
      batches := batches[id := BatchRow(workflowId, Running, None, config)];
      return None;
    }

    method ExecInsertMachineRun(id: Uuid, batchId: Uuid, name: string, host: string)
      returns (error: Option<Violation>)
      modifies this
      ensures error == Raised(InsertMachineRun(old(Contents()), id, batchId, name, host))
      ensures Contents() == After(old(Contents()), InsertMachineRun(old(Contents()), id, batchId, name, host))
    {
      if NameTaken(Contents(), batchId, name) {
        return None;
      }
      if id in machines {
        return Some(PrimaryKey);
      }
      if batchId !in batches {
        return Some(ForeignKey);
      }
      machines := machines[id := MachineRow(batchId, name, host, Running, None)];
      return None;
    }

    method ExecInsertPhase(s: Sink, p: PhaseResult) returns (error: Option<Violation>)
      modifies this
      ensures error == Raised(PersistPhase(old(Contents()), s, p))
      ensures error.None? ==> Contents() == PersistPhase(old(Contents()), s, p).value
    {
      var row := s.Row(p);
      if row.status == Running {
        return Some(Check);
      }
      if p.id in phases {
        return Some(PrimaryKey);
      }
      if row.batchId !in batches || (row.machineId.Some? && row.machineId.value !in machines) {
        return Some(ForeignKey);
      }
      phases := phases[p.id := row];
      if p.metrics != [] {
        for i := 0 to |p.metrics|
          invariant phases == old(phases)[p.id := row]
          invariant batches == old(batches) && machines == old(machines)
          invariant metrics == old(metrics) + MetricRows(p.id, p.metrics[..i])
        {
          var m := p.metrics[i];
          metrics := metrics + multiset{MetricRow(p.id, m.name, m.value, m.unit)};
          MetricRowsSnoc(p.id, p.metrics, i);
        }
        assert p.metrics[..|p.metrics|] == p.metrics;
      }
      return None;
    }

    method ExecFinalizeMachineRun(id: Uuid, status: Status, at: Instant) returns (error: Option<Violation>)
      modifies this
      ensures error == Raised(FinalizeMachineRun(old(Contents()), id, status, at))
      ensures Contents() == After(old(Contents()), FinalizeMachineRun(old(Contents()), id, status, at))
    {
      if id in machines {
        if status == Skipped {
          return Some(Check);
        }
        machines := machines[id := machines[id].(status := status, finishedAt := Some(at))];
      }
      return None;
    }

    method ExecFinalizeBatchRun(id: Uuid, status: Status, at: Instant) returns (error: Option<Violation>)
      modifies this
      ensures error == Raised(FinalizeBatchRun(old(Contents()), id, status, at))
      ensures Contents() == After(old(Contents()), FinalizeBatchRun(old(Contents()), id, status, at))
    {
      if id in batches {
        if status == Skipped {
          return Some(Check);
        }
        batches := batches[id := batches[id].(status := status, finishedAt := Some(at))];
      }
      return None;
    }

    method ExecPhases(s: Sink) returns (error: Option<Violation>)
      modifies this
      ensures error == Raised(PersistPhases(old(Contents()), s, s.Phases()))
      ensures error.None? ==> Contents() == PersistPhases(old(Contents()), s, s.Phases()).value
    {
      var ps := s.Phases();
      for i := 0 to |ps|
        invariant PersistPhases(old(Contents()), s, ps[..i]) == Success(Contents())
      {
        assert ps[..i + 1][..i] == ps[..i];
        error := ExecInsertPhase(s, ps[i]);
        if error.Some? {
          FailureSticks(old(Contents()), s, ps, i + 1);
          return;
        }
      }
      assert ps[..|ps|] == ps;
      return None;
    }

    /** One machine_run with all its phases and metrics, in a single transaction. */
    method PersistMachineResults(s: Sink) returns (error: Option<Violation>)
      requires s.MachineSink?
      modifies this
      ensures error == Raised(Persist(old(Contents()), s))
      ensures Contents() == After(old(Contents()), Persist(old(Contents()), s))
      ensures error.None? ==> forall p | p in s.Phases() :: Recorded(Contents(), s, p)
    {
      var snapshot, r := Contents(), s.result;
      error := ExecInsertMachineRun(r.machineId, s.batchId, r.machine.name, r.machine.host);
      if error.None? {
        error := ExecPhases(s);
      }
      if error.None? {
        error := ExecFinalizeMachineRun(r.machineId, r.status, r.finishedAt);
      }
      if error.Some? {
        Rollback(snapshot);
      } else {
        forall p | p in s.Phases() { CommitRecords(snapshot, s, p); }
      }
    }

    /** The phases of a cross-host workflow, in a single transaction. */
    method PersistBatchPhases(s: Sink) returns (error: Option<Violation>)
      requires s.PhaseSink?
      modifies this
      ensures error == Raised(Persist(old(Contents()), s))
      ensures Contents() == After(old(Contents()), Persist(old(Contents()), s))
      ensures error.None? ==> forall p | p in s.Phases() :: Recorded(Contents(), s, p)
    {
      var snapshot := Contents();
      error := ExecPhases(s);
      if error.Some? {
        Rollback(snapshot);
      } else {
        forall p | p in s.Phases() { CommitRecords(snapshot, s, p); }
      }
    }

    /** One attempt of a persistence activity that reaches the store. */
    method Perform(e: Event) returns (error: Option<Violation>)
      modifies this
      ensures error == Raised(Exec(old(Contents()), e))
      ensures Contents() == After(old(Contents()), Exec(old(Contents()), e))
    {
      match e
      case Init(id, workflowId, config) => error := ExecInsertBatchRun(id, workflowId, config);
      case Child(s) =>
        if s.MachineSink? {
          error := PersistMachineResults(s);
        } else {
          error := PersistBatchPhases(s);
        }
      case Finalize(id, status, at) => error := ExecFinalizeBatchRun(id, status, at);
    }

    /** A whole history of attempts, performed one after another on the tables. */
    method PerformAll(h: seq<Attempt>)
      modifies this
      ensures Contents() == Replay(old(Contents()), h)
    {
      for i := 0 to |h|
        invariant Contents() == Replay(old(Contents()), h[..i])
      {
        assert h[..i + 1][..i] == h[..i];
        if h[i].fate != Dropped {
          var error := Perform(h[i].event);
        }
      }
      assert h[..|h|] == h;
    }
  }

  lemma MetricRowsSnoc(id: Uuid, ms: seq<Metric>, i: nat)
    requires i < |ms|
    ensures MetricRows(id, ms[..i + 1]) ==
            MetricRows(id, ms[..i]) + multiset{MetricRow(id, ms[i].name, ms[i].value, ms[i].unit)}
  {
    var rows := (ms: seq<Metric>) =>
      seq(|ms|, k requires 0 <= k < |ms| => MetricRow(id, ms[k].name, ms[k].value, ms[k].unit));
    var row := MetricRow(id, ms[i].name, ms[i].value, ms[i].unit);
    assert rows(ms[..i + 1]) == rows(ms[..i]) + [row];
  }

  lemma {:induction false} FailureSticks(db: Db, s: Sink, ps: seq<PhaseResult>, n: nat)
    requires n <= |ps| && PersistPhases(db, s, ps[..n]).Failure?
    ensures PersistPhases(db, s, ps) == PersistPhases(db, s, ps[..n])
    decreases |ps| - n
  {
    if n < |ps| {
      assert ps[..n + 1][..n] == ps[..n];
      FailureSticks(db, s, ps, n + 1);
    } else {
      assert ps[..n] == ps;
    }
  }
}
