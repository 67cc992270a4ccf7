# Verified model of bare-metal-tests

This project models the orchestration core of the bare-metal test pipeline and
proves what it guarantees over every schedule, retry pattern and failure.

- `Model.dfy`, `Wrappers.dfy`: the values that travel between workflows, activities
  and the result store.
- `Store.dfy`, `ResultStore.dfy`: the four tables, their constraints, every SQL
  statement with its `ON CONFLICT` behaviour, the persistence transactions (as
  functions on a store value, and as methods that change tables in place and roll
  back), and the closed form of what a commit writes.
- `Delivery.dfy`: at-least-once delivery. Histories of attempts that crash, lose
  their acknowledgement, repeat or arrive late; exactly-once effect, first commit
  wins, confluence.
- `Jobs.dfy`, `Pairs.dfy`: the machine, mesh and encapsulation workflows as staged
  programs over activities (and as the imperative code that gathers them), their
  phase layouts, and the pair enumeration with its closed-form rank.
- `ChildRun.dfy`: one child workflow as a transition system with concurrent
  activities, attempts left and retries; schedule independence and termination.
- `Batch.dfy`, `Cli.dfy`: auto-fail rules, the SMART probe, gather decoding, the
  verdict, host selection and plan building.
- `BatchSystem.dfy`, `BatchSafety.dfy`, `BatchResults.dfy`: the whole batch (root
  workflow, children, persistence attempts, overdue attempts, store) as one
  transition system; its invariant; durability, integrity, verdict, termination.
- `BatchCounts.dfy`: how often the persistence activities are attempted before they
  succeed or are given up, and what becomes of attempts that time out.
- `BatchRows.dfy`: when the batch row exists and is closed, and runs that leave it
  `running` for good.
- `BatchReporting.dfy`, `BatchRuns.dfy`: which stored results a batch reports, as an
  exact condition over every run; runs in which a stored result goes unreported or
  a batch passes for want of results, and batches that have such runs.
- `Vxlan.dfy`, `VxlanLate.dfy`, `VxlanActivities.dfy`, `EncapAgreement.dfy`: device state of the hosts
  under command sequences that can break off anywhere; history independence and
  clean-up; commands that arrive late; agreement with the workflow as a child of the batch.
- `ConfigMerge.dfy`, `ConfigHeap.dfy`, `ConfigSchema.dfy`: the recursive configuration
  merge, its path semantics and laws, the heap implementation, and the validation
  models of the configuration file with what the merge preserves of them.
- `Dmidecode.dfy`: the one-pass `dmidecode` parser against split, map and filter.

## How the environment is modelled

The outcome of each activity of a run (its result, or a final exception) is fixed by
an oracle over which every theorem quantifies; the schedule, the number of failed
attempts before the outcome, and the fate of every persistence attempt are chosen
freely step by step. A persistence attempt may be acknowledged, be rejected, crash
before its commit, commit and lose its acknowledgement, or time out and reach the
store at any later point, even after the batch is over. Other batches may write to the
store at any moment, with ids and a workflow of their own. Uuids are fresh, workflow
values are computed once, and retries are bounded (`maximum_attempts` of at least 1).
Starting a second child under a machine name already used raises, because the child
workflow id is taken. `BatchRuns.ReadyBatchExists` shows the assumptions can be met.

On a host, a command is carried out, refused, or lost with the connection (with or
without its effect); any command may be refused, deletions of existing devices
included. An error text can say "already exists" only when what was asked for is
there: the device name or the VNI for `ip link add`, the address for `ip addr add`.
Whether it does say so then is left to the environment: the repository only searches
for the words, and nothing in it fixes what the kernel or `iproute2` prints.

## Where documentation and code differ

The model follows the code.

- The persistence activities are called idempotent. Store contents are; replies are
  not: a redelivered payload with at least one phase is rejected on the phase primary
  key (`Store.PersistRepeated`). So a commit whose acknowledgement is lost makes the
  child raise, and the batch leaves out a result the store holds:
  `BatchReporting.StoredUnreportedIff` says exactly when, and
  `BatchRuns.StoredYetUnreported` gives every batch with phases to store such a run.
- A payload without phases that loses to another holder of its (batch, name) is
  acknowledged although nothing of it is stored (`Store.PersistBeaten`).
- Children that raise have no say in the verdict, so a batch all of whose children
  raised is `passed` (`BatchResults.PassedMeans`, `BatchRuns.AllRaisedPasses`,
  `BatchRuns.AllRaisedReturns`).
- The batch workflow is described as opening its row and finalising it. It can end with
  the row `running` for good: when an opening arrives but no attempt is acknowledged,
  or when no closing gets through (`BatchRows.RowRunsUntilClosed` says exactly when a
  row is closed; `BatchRows.StuckAfterOpening` and `BatchRows.StuckAfterVerdict` give
  every batch such runs).
- A failure inside one group is said not to skip later groups. A failure that an
  activity returns does not (`ChildRun.FailuresSkipNothing`); an exception, left after
  the retries, stops every later group (`ChildRun.NothingAfterRaise`).
- Teardown is said to run always; it runs exactly when setup returned
  (`Vxlan.Lifecycle`, `Vxlan.RaisingSetupSkipsTeardown`).
- Teardown is said to keep leftover devices from polluting later runs. It records the
  exit status of `ip link del` without looking at it, so a refused deletion of an
  existing device returns `passed` with the device still there
  (`Vxlan.RefusedDeletesSurvive`; `Vxlan.TeardownCleans` and
  `Vxlan.RetriedTeardownCleans` say exactly when a host is clean). Later runs are
  protected by their own setup instead (`Vxlan.HistoryIndependence`).
- The `; true` behind the first `ip link del` can hide a failed deletion; the stale
  tunnel then survives a setup that returns (`Vxlan.SetupPutsTunnelUp` says exactly
  when; `Vxlan.StaleTunnelSurvives` is an instance, in an environment whose reply to
  the name conflict says "already exists").
- Layering configuration files is not associative when a leaf sits between two
  tables; `ConfigMerge.MergeAssociativeIff` gives the exact condition.
- Merging preserves schemas unless the override adds an optional section half-filled
  (`ConfigMerge.MergeConformsIff`); the configuration's optional fields are all leaves
  (`ConfigSchema.ConfigurationOptionalsAreLeaves`).
- The mesh docstring speaks of rounds; the pairs run strictly one at a time
  (`ChildRun.OneThroughputAtATime`).
- A disk whose SMART report cannot be read does not fail the probe; output that is
  blank after a successful command, or is no report, makes it raise, and so does a
  lost session (`Batch.ProbeDisksSmart`).

## Model

| member | source | states |
|---|---|---|
| Store.PersistPhaseWrites | src/bare_metal_tests/db/repository.py:59-101 | one phase insert with its metrics succeeds exactly when status, key and parents allow it, and writes exactly that row and those metrics |
| Store.PersistPhasesWrites | src/bare_metal_tests/activities/persist.py:96-112 | the insert loop succeeds exactly on fresh, distinct phases with existing parents, and adds exactly their rows and the sum of their metrics |
| Store.PersistFresh | src/bare_metal_tests/activities/persist.py:82-119 | the first delivery of a fresh payload into an open batch commits and leaves all of its rows, each once, its machine row final |
| Store.PersistRepeated | src/bare_metal_tests/activities/persist.py:3-5 | a redelivery changes nothing, and is rejected on the primary key exactly when the payload has phases |
| Store.PersistBeaten | src/bare_metal_tests/db/repository.py:46-56 | a payload whose (batch, name) is taken changes nothing; with phases it is rejected on the missing machine row, without phases it is acknowledged |
| Store.PersistUnopened | migrations/001_init.sql:12-32 | before the batch row exists no machine payload and no phase can be stored |
| Store.PersistKeepsValid | migrations/001_init.sql:3-45 | every transaction, committed or aborted, keeps all unique, foreign-key and check constraints, and leaves batch rows alone |
| Store.PersistLeavesNoneRunning | src/bare_metal_tests/activities/persist.py:88-119 | no committed machine row is `running` |
| Store.CommitRecords | src/bare_metal_tests/activities/persist.py:95-112 | after a commit each phase has its row field by field: batch, machine or none, phase name or label and name, status, details and times as sent; and its metric rows |
| Store.PresentIsRecorded | src/bare_metal_tests/db/repository.py:38-116 | the same of every payload that is there, with its machine row: batch, name, host, final status and time |
| ResultStore.Database.ExecInsertPhase | src/bare_metal_tests/db/repository.py:59-101 | the phase insert and the metric loop agree with the transaction's step, with its violation on failure |
| ResultStore.Database.PersistMachineResults | src/bare_metal_tests/activities/persist.py:82-119 | the in-place transaction either commits the whole payload, each phase recorded as sent, or rolls everything back, raising the violation |
| ResultStore.Database.PersistBatchPhases | src/bare_metal_tests/activities/persist.py:122-144 | the in-place transaction either commits all phases, each recorded as sent under its label, or rolls everything back, raising the violation |
| ResultStore.Database.PerformAll | src/bare_metal_tests/activities/persist.py:69-157 | any history of attempts of the four activities, performed one after another on live tables, ends in the contents that the delivery theorems speak of |
| Delivery.ExactlyOnce | src/bare_metal_tests/activities/persist.py:82-144 | after any history of crashed, unacknowledged, repeated or late attempts the result tables are the initial ones plus the winners' rows; every payload is wholly there once or wholly missing |
| Delivery.WinnersAreRecorded | src/bare_metal_tests/activities/persist.py:82-144 | after any history every payload that won is recorded field by field as it was sent |
| Delivery.FirstCommitWins | src/bare_metal_tests/db/repository.py:46-56 | the first commit for a (batch, name) stays whole under every continuation and excludes every trace of a rival |
| Delivery.RivalsExclude | migrations/001_init.sql:20 | two payloads for the same (batch, name) are never both stored |
| Delivery.WinnersAreDelivered | src/bare_metal_tests/activities/persist.py:82-144 | without rivals, in open batches, the winners are exactly the payloads some attempt carried to the store |
| Delivery.Confluence | src/bare_metal_tests/activities/persist.py:88-144 | two histories delivering the same payloads, in any order and multiplicity, end in equal result tables |
| Delivery.BatchTableApart | src/bare_metal_tests/activities/persist.py:69-79 | batch rows depend only on the attempts to open and close batches |
| Delivery.LastCloseWins | src/bare_metal_tests/db/repository.py:19-131 | in every history an open batch's row is the opened one with the last closing that reached the store: reopenings, repeated or late, and result deliveries never change it |
| Delivery.FullConfluence | src/bare_metal_tests/activities/persist.py:69-157 | with the same openings and closings as well, the whole stores are equal |
| Jobs.Gather | src/bare_metal_tests/workflows/machine.py:163-164 | gathering gives the results in argument order, or raises if some activity does |
| Jobs.MachineRun | src/bare_metal_tests/workflows/machine.py:119-167 | the machine workflow computes the staged reading of its program |
| Jobs.MeshRun | src/bare_metal_tests/workflows/network_mesh.py:71-111 | the mesh workflow computes the staged reading of its program |
| Jobs.EncapRun | src/bare_metal_tests/workflows/encapsulation.py:58-98 | the workflow with its `try`/`finally` raises exactly when its setup, its measurement after a passed setup, or its teardown does; else it returns their phases in that order |
| Jobs.EncapLayout | src/bare_metal_tests/workflows/encapsulation.py:58-98 | the same of the staged reading that the child transition system follows |
| Jobs.MachineLayout | src/bare_metal_tests/workflows/machine.py:127-167 | a machine run raises exactly when one of its activities does; else its phases are SSH check, installation if that passed, the seven probes in order, the stress group |
| Jobs.MachinePositions | src/bare_metal_tests/workflows/machine.py:127-167 | the seven probes by name after the setup, then the three fixed stress activities and, per profile in order, the fio activity of its name |
| Jobs.MeshLayout | src/bare_metal_tests/workflows/network_mesh.py:76-111 | a mesh run raises exactly when one of its activities does; else its phases follow the mesh activities in order |
| Jobs.MeshPositions | src/bare_metal_tests/workflows/network_mesh.py:76-111 | n MTU phases, n(n-1)/2 jumbo phases if asked for, n(n-1)/2 throughput phases, each pair phase at its rank |
| Pairs.Pairs | src/bare_metal_tests/workflows/network_mesh.py:57-63 | the nested loops list each pair i < j at position i*n - i*(i+1)/2 + (j-i-1), n(n-1)/2 in total |
| Pairs.RankInRange | src/bare_metal_tests/workflows/network_mesh.py:60-62 | every rank lies in its row and below the total |
| Pairs.RankInjective | src/bare_metal_tests/workflows/network_mesh.py:60-62 | no two pairs share a position |
| Pairs.RankOnto | src/bare_metal_tests/workflows/network_mesh.py:60-62 | every position belongs to some pair |
| Pairs.ListsPairsUnique | src/bare_metal_tests/workflows/network_mesh.py:57-63 | the layout determines the list |
| ChildRun.RunStaysOnTrack | src/bare_metal_tests/workflows/machine.py:112-117 | in every reachable state all earlier stages are over with the sequential results and only the current group is in flight |
| ChildRun.ScheduleIndependence | src/bare_metal_tests/workflows/machine.py:127-191 | for fixed outcomes every interleaving and retry pattern ends with the same phase list, or raises |
| ChildRun.RetriesCounted | src/bare_metal_tests/workflows/machine.py:101-106 | in every run an activity in flight has left exactly the policy's attempts less its failures at this stage |
| ChildRun.RetriedToTheEnd | src/bare_metal_tests/workflows/machine.py:101-106 | from every reachable state an activity that would return can do so after any number of retryable failures short of its attempts; one that would raise is given up with its last |
| ChildRun.NothingAfterRaise | src/bare_metal_tests/workflows/machine.py:112-117 | an exception in a stage stops every later one under every schedule |
| ChildRun.FailuresSkipNothing | src/bare_metal_tests/workflows/machine.py:112-117 | a returned failure skips nothing: under every schedule a machine child that ends without an exception has attempted every activity of every group |
| ChildRun.OneThroughputAtATime | src/bare_metal_tests/workflows/network_mesh.py:102-111 | at most one throughput measurement is in flight, and only after all MTU and jumbo checks are over |
| ChildRun.TeardownAttempted | src/bare_metal_tests/workflows/encapsulation.py:72-98 | under every schedule a child that is past measuring has attempted the teardown exactly when its setup returned |
| EncapAgreement.ReturnsTogether | src/bare_metal_tests/workflows/encapsulation.py:58-104 | when outcomes are those of a course on the hosts, the child has phases exactly when the run on the hosts returns, and its status is the measurement's alone |
| EncapAgreement.EndsTogether | src/bare_metal_tests/workflows/encapsulation.py:58-98 | under every schedule the child attempts the teardown exactly when the run on the hosts does, and crashes exactly when that run raises |
| ChildRun.TakeDecreases | src/bare_metal_tests/workflows/machine.py:101-106 | every step of a child makes progress and every attempt that ends uses one up |
| ChildRun.TakeStarts | src/bare_metal_tests/workflows/machine.py:101-106 | every step draws the attempts it starts, a whole group at once or a retry, from the budget |
| ChildRun.CanStep | src/bare_metal_tests/workflows/machine.py:127-167 | a child that is measuring can always step |
| ChildRun.MachineAttempts | src/bare_metal_tests/workflows/machine.py:127-191 | the attempt budget of a machine is at most max * (2+7+3+profiles+1) |
| Batch.ShouldFail | src/bare_metal_tests/workflows/batch.py:73-89 | the scan decides exactly the auto-fail condition |
| Batch.ProbeDisksSmart | src/bare_metal_tests/activities/hardware.py:114-140 | the probe raises exactly when the SSH session does not open or is lost or some output cannot be parsed (blank after success, or no report); else the disk list mirrors the readings in order and the status is failed exactly when some report says bad health |
| Batch.AutoFail | src/bare_metal_tests/workflows/batch.py:73-89 | on results assembled by the machine workflow the batch must fail exactly when some phase did not pass, whatever the flags |
| Batch.Decode | src/bare_metal_tests/workflows/batch.py:150-161 | decoding inverts assembly: machine results are the non-raising machine children in order, mesh and encapsulation results land in their own slots |
| Batch.Conclude | src/bare_metal_tests/workflows/batch.py:150-181 | the end of the workflow yields the decoded results and the verdict on them |
| BatchSystem.GatherIsDecodable | src/bare_metal_tests/workflows/batch.py:142-148 | the list gathered from the children is the list the decoding expects |
| BatchSafety.SaveOutcome | src/bare_metal_tests/workflows/machine.py:183-191 | once the batch row is there, a save either leaves the payload stored or is rejected because it already is |
| BatchSafety.NextKeeps | src/bare_metal_tests/workflows/batch.py:97-174 | every step of the batch, late arrivals included, keeps the invariant tying row, events, children and store |
| BatchSafety.ReachableInv | src/bare_metal_tests/workflows/batch.py:97-174 | the invariant holds in every reachable state |
| BatchResults.Durability | src/bare_metal_tests/workflows/batch.py:148-174 | whenever the batch row is passed or failed, the verdict is final, equal to it, and every reported result is already stored |
| BatchRows.RowRunsUntilClosed | src/bare_metal_tests/workflows/batch.py:97-174 | in every reachable state the batch row exists exactly when an opening reached the store, and has left `running` exactly when a closing did, which carries the verdict |
| BatchRows.StuckAfterOpening | src/bare_metal_tests/workflows/batch.py:97-112 | every ready batch has a run that raises at the start and leaves its row `running` |
| BatchRows.StuckAfterVerdict | src/bare_metal_tests/workflows/batch.py:169-174 | every ready batch has a run with a verdict that raises at the end and leaves its row `running` |
| BatchResults.ReturnsClosed | src/bare_metal_tests/workflows/batch.py:169-181 | a batch that returns has closed its row with the status it returns |
| BatchResults.ReportedIsRecorded | src/bare_metal_tests/workflows/batch.py:148-161 | in every run each phase of a child that returned is in the store as reported, a failed one as failed |
| BatchResults.ReportedMachineIsRecorded | src/bare_metal_tests/workflows/machine.py:169-191 | and its machine row has its own id, name, host, the verdict on its phases and its finishing time |
| BatchResults.PassedRowIsBorneOut | src/bare_metal_tests/workflows/batch.py:163-174 | when the batch row says passed, so do the stored phase rows of every child that returned |
| BatchResults.SavesNeverOrphaned | src/bare_metal_tests/workflows/batch.py:101-120 | a child's transaction, by a waiting child or a late arrival even after the batch is over, never aborts on a missing parent, only on its own earlier rows |
| BatchResults.Integrity | migrations/001_init.sql:3-45 | in every state of every interleaving the constraints hold and no machine row is `running` |
| BatchResults.PassedMeans | src/bare_metal_tests/workflows/batch.py:163-167 | with SMART phases made by the SMART probe, the batch passed exactly when every phase of every child that returned passed |
| BatchResults.Termination | src/bare_metal_tests/workflows/batch.py:65-70 | the batch's own steps in any run are bounded by the initial weight, whatever other batches do meanwhile |
| BatchResults.Progress | src/bare_metal_tests/workflows/batch.py:97-174 | no run gets stuck before the batch is over and nothing is overdue |
| BatchResults.OthersMayAct | src/bare_metal_tests/db/repository.py:19-131 | in every state of a run other batches may make any attempt of theirs |
| BatchResults.MachineAttemptsBounded | src/bare_metal_tests/workflows/machine.py:101-106 | in any run at most max * (2+7+3+profiles+1) attempts are started for one machine, those abandoned in flight included |
| BatchCounts.SaveGivenUpIff | src/bare_metal_tests/workflows/machine.py:183-191 | in every run a child gives up its save exactly when it made all its attempts and none was acknowledged, returns exactly when one was, and waits only with fewer made |
| BatchCounts.RowGivenUpIff | src/bare_metal_tests/workflows/batch.py:102-174 | the batch gives up opening or closing its row exactly when all attempts were made and none was acknowledged |
| BatchCounts.SavedAfterFailures | src/bare_metal_tests/workflows/machine.py:183-191 | every ready batch has, for each child that yields and each number of crashed saves short of the limit, a run with exactly those and one more that returns the child's result |
| BatchCounts.OverdueCounted | src/bare_metal_tests/workflows/batch.py:97-112 | every attempt that timed out is overdue until it arrives, once |
| BatchReporting.AcknowledgedIff | src/bare_metal_tests/activities/persist.py:82-144 | a save is acknowledged exactly when it is the first of its payload to arrive, or the payload has no phases |
| BatchReporting.ReportedIffConfirmed | src/bare_metal_tests/workflows/machine.py:183-191 | at the verdict of any run a child whose activities returned has returned exactly when its payload's first arrival was acknowledged (without phases: some attempt was), and has raised otherwise |
| BatchReporting.StoredUnreportedIff | src/bare_metal_tests/workflows/batch.py:148-161 | a payload with phases is stored exactly when it arrived; it is stored but its child raised exactly when the first arrival lost its acknowledgement |
| BatchReporting.MachineReportedIff | src/bare_metal_tests/workflows/batch.py:150-161 | a machine's result is in the batch result exactly when it was confirmed |
| BatchReporting.GroupReportedIff | src/bare_metal_tests/workflows/batch.py:150-161 | the mesh or encapsulation result is in the batch result exactly when it was confirmed |
| BatchReporting.UnacknowledgedIsUnreported | src/bare_metal_tests/activities/persist.py:82-119 | once a payload with phases has arrived without acknowledgement, no continuation of the run lets its child return, and the store holds the payload ever after |
| BatchRuns.StoredYetUnreported | src/bare_metal_tests/activities/persist.py:82-144 | every batch with phases to store has a run that returns without a result the store holds whole |
| BatchRuns.AllRaisedPasses | src/bare_metal_tests/workflows/batch.py:153-163 | if no child can return, every run that reaches a verdict says passed with no results |
| BatchRuns.AllRaisedReturns | src/bare_metal_tests/workflows/batch.py:153-181 | and such a batch has a run that returns that verdict |
| BatchRuns.ReadyBatchExists | src/bare_metal_tests/cli.py:187-216 | a one-machine batch built by the command line, into an empty store, meets all assumptions and has a payload with phases |
| BatchRuns.RaisingBatchExists | src/bare_metal_tests/cli.py:187-216 | the same batch with a raising SSH check meets all assumptions and no child can return |
| Cli.Select | src/bare_metal_tests/cli.py:57-64 | all hosts without names; otherwise per name, in order, the last inventory entry of that name, or exit with exactly the unknown names |
| Cli.RepeatsCannotStart | src/bare_metal_tests/cli.py:57-64 | of the hosts asked for, exactly those named before are children that cannot start |
| Cli.BuiltPlanIsPlanned | src/bare_metal_tests/cli.py:90-216 | built plans carry one batch id and retry policy and only runnable children exactly when retries are bounded and the fio profiles usable where asked for |
| Cli.BuiltPlanShape | src/bare_metal_tests/cli.py:113-216 | one machine plan per target in order with exactly the per-machine phases asked for and the configured fio profiles; the mesh over all targets with the jumbo switch; encapsulation between the first two under the fixed VNI, failing exactly with fewer than two; ids, snapshot, attempts and both auto-fail switches as given |
| Cli.PhasesKeepOrder | src/bare_metal_tests/cli.py:187-216 | the machine phases stay in the order asked for |
| Vxlan.BringUpLeaves | src/bare_metal_tests/activities/encapsulation.py:51-76 | a bring-up that returns leaves exactly the planned device, or the stale one extended if its deletion failed silently; other devices are untouched |
| Vxlan.SetupPutsTunnelUp | src/bare_metal_tests/activities/encapsulation.py:80-107 | a setup that returns has put up both matching ends, from any state, exactly when the hosts differ and no end kept an old device unlike the plan behind a refused deletion |
| Vxlan.RetriedSetupPutsTunnelUp | src/bare_metal_tests/workflows/encapsulation.py:63-70 | the same for a setup retried from any partial state: the attempt that returns decides |
| Vxlan.SetupStopsAt | src/bare_metal_tests/activities/encapsulation.py:72-76 | the first setup attempt that does not break off decides: done, it returns; rejected, it raises at once, leaving that attempt's fleet whatever attempts would follow |
| Vxlan.SetupReturnsIff | src/bare_metal_tests/workflows/encapsulation.py:63-70 | a retried setup returns exactly when some attempt is done before any is rejected |
| Vxlan.RejectionEndsRun | src/bare_metal_tests/workflows/encapsulation.py:63-72 | a rejected setup attempt ends the run: no further attempt, no measurement, no teardown |
| Vxlan.WillingDeletesRenew | src/bare_metal_tests/activities/encapsulation.py:61-76 | if none of the setup's own deletions is refused, both ends are renewed from every fleet |
| VxlanLate.OneLateCommand | src/bare_metal_tests/activities/encapsulation.py:51-76 | a command of an overtaken attempt arriving at any point of a bring-up that returns leaves the planned end, unless it is a deletion carried out after the last step |
| VxlanLate.LateAgainstTunnel | src/bare_metal_tests/workflows/encapsulation.py:63-70 | of the commands that can still arrive once the tunnel is up, exactly the deletions carried out take it down |
| Vxlan.StaleTunnelSurvives | src/bare_metal_tests/activities/encapsulation.py:61-76 | an instance where a silently failing deletion leaves the old tunnel behind a setup that returns |
| Vxlan.TeardownCleans | src/bare_metal_tests/activities/encapsulation.py:198-223 | a teardown attempt that returns leaves a host clean exactly when it had no device or its deletion was not refused |
| Vxlan.RetriedTeardownCleans | src/bare_metal_tests/workflows/encapsulation.py:90-98 | a retried teardown that returns, from any state and after any broken attempts, leaves both hosts clean exactly when its last attempt had no deletion of an existing device refused |
| Vxlan.TeardownReturnsIff | src/bare_metal_tests/workflows/encapsulation.py:90-98 | a retried teardown goes on until an attempt is done and raises only when none is |
| Vxlan.RefusedDeletesSurvive | src/bare_metal_tests/activities/encapsulation.py:209-220 | an instance where both deletions are refused, the teardown returns and both devices are still there |
| Vxlan.Lifecycle | src/bare_metal_tests/workflows/encapsulation.py:58-98 | in every run: only the two tunnel devices change; measuring and teardown happen exactly when some setup attempt was done before any was rejected, even if measuring raises; the measured tunnel is the plan's, and the hosts are clean after a returning teardown, under exact conditions |
| Vxlan.HistoryIndependence | src/bare_metal_tests/workflows/encapsulation.py:53-55 | after any two histories of runs between any hosts, crashed or with refused deletions, the same plan measures on identical tunnels whenever its own deciding setups renewed the ends |
| Vxlan.RunAllFrame | src/bare_metal_tests/workflows/encapsulation.py:53-55 | no history of runs changes anything but the tunnel devices of the hosts that took part |
| Vxlan.RaisingSetupSkipsTeardown | src/bare_metal_tests/workflows/encapsulation.py:63-72 | a setup that raises can leave a device behind without a teardown |
| VxlanActivities.Cluster.BringUpVxlan | src/bare_metal_tests/activities/encapsulation.py:51-76 | the command loop changes the host as specified and ends as specified |
| VxlanActivities.Cluster.TeardownVxlan | src/bare_metal_tests/activities/encapsulation.py:198-223 | the loop over hosts deletes as specified, recording exits only |
| ConfigMerge.MergeLookup | src/bare_metal_tests/config.py:162-176 | path by path: an override leaf hides what lies below, an override node wins with tables combining, other base paths survive |
| ConfigMerge.MergeSelf | src/bare_metal_tests/config.py:162-176 | merging a tree with itself gives the tree |
| ConfigMerge.MergeEmpty | src/bare_metal_tests/config.py:162-176 | the empty table is a two-sided identity on tables |
| ConfigMerge.MergeAbsorbs | src/bare_metal_tests/config.py:162-176 | applying an override twice equals applying it once |
| ConfigMerge.MergeIsOverrideIffCovered | src/bare_metal_tests/config.py:162-176 | the merge equals the override exactly when the override decides every base path |
| ConfigMerge.MergeAssociativeIff | src/bare_metal_tests/config.py:162-176 | layering is associative exactly when no leaf sits between two tables, unless the last covers the first |
| ConfigMerge.MergeNotAssociative | src/bare_metal_tests/config.py:162-176 | an instance where associativity fails |
| ConfigMerge.MergeConformsIff | src/bare_metal_tests/config.py:184-200 | a complete base under a well-typed partial override conforms exactly when no new section is half-filled |
| ConfigMerge.OptionalLeavesSuffice | src/bare_metal_tests/config.py:184-200 | when only leaves are optional no section can be newly half-filled |
| ConfigSchema.ConfigurationOptionalsAreLeaves | src/bare_metal_tests/config.py:34-159 | the configuration's own models, section by section, have defaults on leaves only |
| ConfigMerge.MergeAllPreservesSchema | src/bare_metal_tests/config.py:197-200 | any chain of partial overrides over a complete default is complete and well typed |
| ConfigMerge.LastLeafWins | src/bare_metal_tests/config.py:197-200 | a leaf of the last file is the leaf of the whole chain |
| ConfigMerge.LastDeciderWins | src/bare_metal_tests/config.py:3-8 | at every path the last file that decides it wins, by removing, replacing or combining with what was there |
| ConfigMerge.BaseLeafSurvivesIff | src/bare_metal_tests/config.py:197-200 | a default that no file repeats survives exactly when no file decides its path |
| ConfigSchema.OverridesKeepConfiguration | src/bare_metal_tests/config.py:184-200 | a complete configuration file stays complete and well typed under any chain of well-typed partial files, whatever leaf values the validator accepts |
| ConfigHeap.MergeKey | src/bare_metal_tests/config.py:170-175 | one loop iteration changes exactly one entry of the copy |
| ConfigHeap.DeepMerge | src/bare_metal_tests/config.py:162-176 | copying and updating key by key, in any order, gives the merge and changes neither argument |
| Dmidecode.EntryIffMatch | src/bare_metal_tests/ssh/parsers.py:47-68 | the entry function finds a pair exactly when the expression matches, whichever way it matches |
| Dmidecode.BlockRecordLastWins | src/bare_metal_tests/ssh/parsers.py:66-68 | a key is present exactly when some line defines it, with the last definition's value |
| Dmidecode.ParseDmidecodeMemory | src/bare_metal_tests/ssh/parsers.py:50-75 | the one-pass parser equals split at headers, map to records, keep in order those whose size is there, not empty and says "No Module" nowhere |
| Dmidecode.ParseAppend | src/bare_metal_tests/ssh/parsers.py:50-75 | parsing is a homomorphism when the second text starts at a header |
| Dmidecode.RoundTrip | src/bare_metal_tests/ssh/parsers.py:50-75 | parsing a printed report, whatever precedes it and whatever else its header lines say, gives the records of the occupied devices in order |
| Dmidecode.EmptySlot | src/bare_metal_tests/ssh/parsers.py:56-60 | an empty slot gives no module |

## Left out

- Temporal's server, replay and data conversion: only the activity and child contract is kept.
- SSH transport, shell quoting and command strings: a command is its effect and its reply.
- Activities still executing on a host after their workflow has raised.
- Vxlan.RetriedSetupPutsTunnelUp: attempts follow one another; of overlapping attempts only a single late command is modelled (`VxlanLate.OneLateCommand`, `VxlanLate.LateAgainstTunnel`).
- Vxlan.RunEncap: the measurement is its outcome only; offload toggling and iperf3 plumbing have no device effect in the model.
- Batch.ProbeDisksSmart: the JSON parsing of `smartctl` output is reduced to whether it succeeds and the health it reports.
- ConfigSchema.ConfigurationOptionalsAreLeaves: the database schema name is expected under its alias `schema`; that the validator also takes it under `db_schema` is not expressed.
- Jobs.MachineRun: requires fio names known to the table and a test disk when there are fio profiles; the lookup error otherwise stalls the workflow.
- Timestamps, `started_at` defaults, serial metric ids, `inet` casts and JSON encoding: opaque or absent; metrics are a multiset, reals stand for doubles.
- The command line's mode without `--use-batch`, which starts the workflows one by one and keeps the batch row itself.
- `load_secrets`, DSN building, environment key naming, and the JSON, sysbench, lscpu, meminfo and ethtool parsers: independent one-expression or one-loop facts.
- Unicode white space and line separators other than newline.
- Argument parsing, logging, worker start-up and pydantic field patterns beyond the status values.
