/** Values shared by the workflows, the activities and the result store. */
module Model {

  import opened Wrappers

  type Uuid = nat
  type Instant = int

  datatype Status = Running | Passed | Failed | Skipped

  datatype Metric = Metric(name: string, value: real, unit: string)

  /** One entry of the SMART probe's disk list: a parsed report, or a disk whose
      report could not be read. */
  datatype DiskEntry = Report(device: string, passed: bool) | Unreadable(device: string)

  /** A phase's details: the SMART probe's disk list, or other JSON. */
  datatype Details = Disks(disks: seq<DiskEntry>) | Json(text: string)

  datatype PhaseResult = PhaseResult(
    id: Uuid,
    phase: string,
    status: Status,
    details: Details,
    metrics: seq<Metric>,
    startedAt: Instant,
    finishedAt: Instant)

  datatype MachineSpec = MachineSpec(name: string, host: string, testDisks: seq<string>)

  datatype MachineResult = MachineResult(
    machineId: Uuid,
    machine: MachineSpec,
    status: Status,
    startedAt: Instant,
    finishedAt: Instant,
    phases: seq<PhaseResult>)

  predicate AllPassed(phases: seq<PhaseResult>) {
    forall p | p in phases :: p.status == Passed
  }

  /** `passed` when every phase passed, `failed` otherwise. */
  function Overall(phases: seq<PhaseResult>): Status {
    if AllPassed(phases) then Passed else Failed
  }
}
