/** A whole batch as one transition system: the batch workflow, its children, the
    persistence attempts in flight or overdue, and the result store. */
module BatchSystem {

  import opened Wrappers
  import opened Model
  import opened Store
  import opened Delivery
  import opened Jobs
  import opened ChildRun
  import opened Batch

  /** The children in the order they are gathered. */
  function JobsOf(plan: BatchPlan): seq<Job> {
    seq(|plan.machinePlans|, i requires 0 <= i < |plan.machinePlans| => MachineJob(plan.machinePlans[i])) +
    (if plan.meshPlan.Some? then [MeshJob(plan.meshPlan.value)] else []) +
    (if plan.encapPlan.Some? then [EncapJob(plan.encapPlan.value)] else [])
  }

  /** Everything the environment chooses besides the schedule: the outcome of each
      child's activities, the generated machine ids, the clock readings, the store
      before the batch, and what other batches may write to it meanwhile. */
  datatype World = World(
    plan: BatchPlan, oracles: seq<Oracle>, machineIds: seq<Uuid>,
    clocks: seq<(Instant, Instant)>, db0: Db, others: set<Sink>)
  {
    function Jobs(): seq<Job> { JobsOf(plan) }
  }

  /** A machine whose name an earlier one has: the child workflow id is taken, so
      starting the child raises. */
  predicate Duplicate(plan: BatchPlan, i: nat) {
    i < |plan.machinePlans| &&
    exists j | 0 <= j < i :: plan.machinePlans[j].machine.name == plan.machinePlans[i].machine.name
  }

  predicate Sized(w: World) {
    |w.oracles| == |w.machineIds| == |w.clocks| == |w.Jobs()|
  }

  /** What the plan builder guarantees. */
  predicate Planned(plan: BatchPlan) {
    && plan.maxAttempts >= 1
    && forall job | job in JobsOf(plan) ::
         RunnableJob(job) && job.BatchId() == Some(plan.batchId) && job.MaxAttempts() == plan.maxAttempts
  }

  function MachineResultOf(w: World, i: nat, phases: seq<PhaseResult>): MachineResult
    requires Sized(w) && i < |w.Jobs()| && w.Jobs()[i].MachineJob?
  {
    MachineResult(w.machineIds[i], w.Jobs()[i].machine.machine, Overall(phases),
                  w.clocks[i].0, w.clocks[i].1, phases)
  }

  /** What child `i` hands to its persistence activity. */
  function SinkOf(w: World, i: nat, phases: seq<PhaseResult>): Sink
    requires Sized(w) && i < |w.Jobs()|
  {
    match w.Jobs()[i]
    case MachineJob(_) => MachineSink(w.plan.batchId, MachineResultOf(w, i, phases))
    case MeshJob(_) => PhaseSink(w.plan.batchId, "mesh", phases)
    case EncapJob(_) => PhaseSink(w.plan.batchId, "encap", phases)
  }

  predicate Yields(w: World, i: nat)
    requires Sized(w) && Planned(w.plan)
  {
    i < |w.Jobs()| && !Duplicate(w.plan, i) && assert w.Jobs()[i] in w.Jobs(); Results(w.Jobs()[i], w.oracles[i]).Some?
  }

  function PayloadOf(w: World, i: nat): Sink
    requires Sized(w) && Planned(w.plan) && Yields(w, i)
  {
    SinkOf(w, i, Results(w.Jobs()[i], w.oracles[i]).value)
  }

  function Payloads(w: World): set<Sink>
    requires Sized(w) && Planned(w.plan)
  {
    set i | 0 <= i < |w.Jobs()| && Yields(w, i) :: PayloadOf(w, i)
  }

  /** This batch's payloads and those of the others. */
  function AllPayloads(w: World): set<Sink>
    requires Sized(w) && Planned(w.plan)
  {
    Payloads(w) + w.others
  }

  /** An event of another batch: its own ids, its own workflow, its own payloads. */
  predicate Foreign(w: World, e: Event) {
    match e
    case Init(b, workflowId, _) => b != w.plan.batchId && workflowId != w.plan.workflowId
    case Child(sink) => sink in w.others
    case Finalize(b, _, _) => b != w.plan.batchId
  }

  /** A planned batch in a valid store, with fresh uuids and a fresh workflow id. */
  ghost predicate Ready(w: World) {
    && Sized(w)
    && Planned(w.plan)
    && Universe(w.db0, AllPayloads(w))
    && (forall s | s in w.others :: s.batchId != w.plan.batchId)
    && w.plan.batchId !in w.db0.batches
    && !WorkflowTaken(w.db0, w.plan.workflowId)
  }

  // ---- States and steps ------------------------------------------------------

  datatype Root =
    | Opening(left: nat)
    | Gathering
    | Closing(result: BatchResult, left: nat)
    | Finished(result: BatchResult)
    | OpenFailed
    | CloseFailed(result: BatchResult)

  /** `history` lists the attempts that reached (or crashed before) the store;
      `late` holds the timed-out attempts that may still reach it. */
  datatype Sys = Sys(root: Root, children: seq<Child>, history: seq<Attempt>, late: multiset<Event>)

  function DbOf(w: World, s: Sys): Db {
    Replay(w.db0, s.history)
  }

  datatype Reply = Tried(fate: Fate) | TimedOut

  datatype Label =
    | OpenTry(reply: Reply)
    | ChildStep(child: nat, step: Step)
    | SaveTry(child: nat, reply: Reply)
    | GatherAll
    | CloseTry(reply: Reply, at: Instant)
    | Arrive(event: Event)
    | Other(attempt: Attempt)  // another batch at the store

  function Send(s: Sys, e: Event, r: Reply): Sys {
    match r
    case Tried(fate) => s.(history := s.history + [Attempt(e, fate)])
    case TimedOut => s.(late := s.late + multiset{e})
  }

  predicate Acknowledged(w: World, s: Sys, e: Event, r: Reply) {
    r == Tried(Acked) && Exec(DbOf(w, s), e).Success?
  }

  function InitEvent(w: World): Event {
    Init(w.plan.batchId, w.plan.workflowId, w.plan.config)
  }

  function Started(w: World): (cs: seq<Child>)
    requires Planned(w.plan)
    ensures |cs| == |w.Jobs()|
  {
    seq(|w.Jobs()|, i requires 0 <= i < |w.Jobs()| =>
      assert w.Jobs()[i] in w.Jobs();
      if Duplicate(w.plan, i) then Crashed else Open(w.Jobs()[i], 0, [], false))
  }

  predicate AllTerminal(s: Sys) {
    forall c | c in s.children :: Terminal(c)
  }

  function MachineOutcomes(w: World, cs: seq<Child>): seq<Option<MachineResult>>
    requires Sized(w) && |cs| == |w.Jobs()|
  {
    seq(|w.plan.machinePlans|, i requires 0 <= i < |w.plan.machinePlans| =>
      if cs[i].Complete? then Some(MachineResultOf(w, i, cs[i].phases)) else None)
  }

  function GroupOutcome(c: Child): Option<GroupResult> {
    if c.Complete? then Some(GroupResult(Overall(c.phases), c.phases)) else None
  }

  function MeshOutcome(w: World, cs: seq<Child>): Option<Option<GroupResult>>
    requires |cs| == |w.Jobs()|
  {
    if w.plan.meshPlan.Some? then Some(GroupOutcome(cs[|w.plan.machinePlans|])) else None
  }

  function EncapOutcome(w: World, cs: seq<Child>): Option<Option<GroupResult>>
    requires |cs| == |w.Jobs()|
  {
    if w.plan.encapPlan.Some? then Some(GroupOutcome(cs[|cs| - 1])) else None
  }

  /** The batch result: the gathered children decoded, and the verdict on them. */
  function Decided(w: World, cs: seq<Child>): BatchResult
    requires Sized(w) && |cs| == |w.Jobs()|
  {
    var ms, mesh, encap := Somes(MachineOutcomes(w, cs)), Flatten(MeshOutcome(w, cs)), Flatten(EncapOutcome(w, cs));
    BatchResult(Verdict(w.plan, ms, mesh, encap), ms, mesh, encap)
  }

  /** What child `i` gives the gather: its result, or nothing if it raised. */
  function GatherEntry(w: World, cs: seq<Child>, i: nat): Option<ChildResult>
    requires Sized(w) && i < |cs| == |w.Jobs()|
  {
    if !cs[i].Complete? then None
    else if w.Jobs()[i].MachineJob? then Some(MachineChild(MachineResultOf(w, i, cs[i].phases)))
    else Some(GroupChild(GroupResult(Overall(cs[i].phases), cs[i].phases)))
  }

  /** The gathered list, child by child, is the list the decoding is given; so the
      batch result is what decoding it yields. */
  lemma GatherIsDecodable(w: World, cs: seq<Child>)
    requires Sized(w) && |cs| == |w.Jobs()|
    ensures Gathered(MachineOutcomes(w, cs), MeshOutcome(w, cs), EncapOutcome(w, cs)) ==
            seq(|cs|, i requires 0 <= i < |cs| => GatherEntry(w, cs, i))
  {
    var n := |w.plan.machinePlans|;
    forall i | 0 <= i < n ensures w.Jobs()[i].MachineJob? {}
    forall i | n <= i < |cs| ensures !w.Jobs()[i].MachineJob? {}
  }

  // ---- The steps, each None if it cannot happen ----------------------------------

  /** An attempt to open the batch row: started once acknowledged, or given up. */
  function OpenTried(w: World, s: Sys, r: Reply): Option<Sys>
    requires Sized(w) && Planned(w.plan)
  {
    if !s.root.Opening? then None
    else
      var s' := Send(s, InitEvent(w), r);
      if Acknowledged(w, s, InitEvent(w), r) then Some(s'.(root := Gathering, children := Started(w)))
      else Some(s'.(root := if s.root.left > 1 then Opening(s.root.left - 1) else OpenFailed))
  }

  function ChildStepped(w: World, s: Sys, i: nat, step: Step): Option<Sys>
    requires Sized(w) && Planned(w.plan)
  {
    if !(i < |s.children| == |w.Jobs()|) then None
    else
      assert w.Jobs()[i] in w.Jobs();
      match Take(w.Jobs()[i], w.oracles[i], s.children[i], step)
      case None => None
      case Some(c) => Some(s.(children := s.children[i := c]))
  }

  /** An attempt of child `i` to persist its phases. */
  function SaveTried(w: World, s: Sys, i: nat, r: Reply): Option<Sys>
    requires Sized(w) && Planned(w.plan)
  {
    if !(i < |s.children| == |w.Jobs()| && s.children[i].Saving?) then None
    else
      var c := s.children[i];
      var e := Event.Child(SinkOf(w, i, c.phases));
      var c' := if Acknowledged(w, s, e, r) then Complete(c.phases)
                else if c.left > 1 then Saving(c.phases, c.left - 1) else Unsaved;
      Some(Send(s, e, r).(children := s.children[i := c']))
  }

  function AllGathered(w: World, s: Sys): Option<Sys>
    requires Sized(w) && Planned(w.plan)
  {
    if s.root.Gathering? && AllTerminal(s) && |s.children| == |w.Jobs()|
    then Some(s.(root := Closing(Decided(w, s.children), w.plan.maxAttempts)))
    else None
  }

  function CloseTried(w: World, s: Sys, r: Reply, at: Instant): Option<Sys>
    requires Sized(w) && Planned(w.plan)
  {
    if !s.root.Closing? then None
    else
      var e := Finalize(w.plan.batchId, s.root.result.status, at);
      var root' := if Acknowledged(w, s, e, r) then Finished(s.root.result)
                   else if s.root.left > 1 then Closing(s.root.result, s.root.left - 1)
                   else CloseFailed(s.root.result);
      Some(Send(s, e, r).(root := root'))
  }

  /** A timed-out attempt reaches the store after all. */
  function Arrived(s: Sys, e: Event): Option<Sys> {
    if e in s.late
    then Some(s.(late := s.late - multiset{e}, history := s.history + [Attempt(e, AckLost)]))
    else None
  }

  /** The system after a labelled step, or None if the step cannot happen. */
  function Next(w: World, s: Sys, l: Label): Option<Sys>
    requires Sized(w) && Planned(w.plan)
  {
    match l
    case OpenTry(r) => OpenTried(w, s, r)
    case ChildStep(i, step) => ChildStepped(w, s, i, step)
    case SaveTry(i, r) => SaveTried(w, s, i, r)
    case GatherAll => AllGathered(w, s)
    case CloseTry(r, at) => CloseTried(w, s, r, at)
    case Arrive(e) => Arrived(s, e)
    case Other(a) => if Foreign(w, a.event) then Some(s.(history := s.history + [a])) else None
  }

  function Begin(w: World): Sys {
    Sys(Opening(w.plan.maxAttempts), [], [], multiset{})
  }

  function Reach(w: World, labels: seq<Label>): Option<Sys>
    requires Sized(w) && Planned(w.plan)
  {
    if labels == [] then Some(Begin(w))
    else
      match Reach(w, labels[..|labels| - 1])
      case None => None
      case Some(s) => Next(w, s, labels[|labels| - 1])
  }
}
