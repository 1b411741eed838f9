# Verified model of the sandbox orchestration core

This project models the stateful core of `agentscope_sandbox_ext` in Dafny and
proves what its protocols keep over every interleaving of their coroutines.

| part | files | shape |
|---|---|---|
| Actor orchestration | `Model`, `Stores`, `WorkerPool`, `Orchestrator` (state and steps); `ActorSafety`, `WorkerSafety`, `SandboxSafety`, `RouterSafety`, `SnapshotSafety`, `IdleSafety` (one invariant each); `OrchestratorTheorems`, `Orphans`, `Routing`, `Locality` (results); `Progress`, `Liveness` (what an operation left alone gets done), `Witnesses` (runs that show what fails) | A transition system: one event runs one coroutine from one await to the next. It contains the sandbox pool's own transition system, so results about both hold together. |
| The same code as it is written | `InMemoryStores`, `Router`, `WorkerPoolClass`, `OrchestratorClass` | Classes whose methods update dictionaries and records in place. An `Orchestrator` object is always in a reachable state: each of its methods takes one event of the transition system, so the results about runs hold of the object, and the methods say what they mean there. |
| Sandbox pool | `Pool`, `PoolSafety`, `PoolTheorems`; `SandboxPool` (class) | Transition system over acquires, probes, prewarm and sweep ticks; the class proves each locked section takes one step of it. |
| Singleflight | `Singleflight`, `SingleflightClass`; `Names`, `ResumeKeys`, `Leaders` | Transition system over leaders, joiners, flights and their deadlines, and the class; the keys it is used with; its composition with the orchestrator. |
| Tiered snapshot store | `TieredStore`, `TieredLoss`, `TieredStoreClass`; `TieredRace`; `Durability` | Refinement of a plain map, the exact condition for it, and the class with its loops; gets and sweeps during a delete, tier by tier; the store under the orchestrator. |
| Workflow engine | `Lifecycle`, `ResumeWorkflow` | The run loop and what re-runs keep; the four resume steps as an instance. |
| VFS snapshots and workdir swap | `Vfs` | Ordered filesystem mutations with faults. |
| Guest-agent frames | `Frames` | Receive loops over an arbitrarily chunked stream. |

`Wrappers` and `Collections` hold shared definitions.

## How to read the orchestrator model

`OrchestratorModel.Sys` is the whole state: actor records, suspended coroutines
(`tasks`), routing table, worker registry with the sandbox pool below it,
durable store and sandbox contents (`Disk`), templates and golden snapshots.
`Disk.saved` is history: the tree of each actor's last suspend or pause whose
final write was accepted. `Apply` is one event, `Run` a sequence of events, and
`OrchestratorTheorems.Reachable` the states of all runs.

Every call into a store is a step of its own, so tasks interleave at least as
freely as they can under the in-memory stores. Four groups of awaits are one
step because no other task can run between them with those stores: choosing an
idle worker and taking it off the warm registry; a whole `release_worker`; a
whole tick of the warm-idle sweeper (`_retire` is not guarded by a version, so
exclusivity does need that tick to be atomic); a table write together with the
routing update next to it in finalize and delete.

## Hypotheses

- What a factory returns, a new worker id and a new snapshot reference are fresh; the clock never runs backwards.
- No task is cancelled, and the pools stay open.
- An actor is not created again while an operation on an earlier actor of the same name is in flight (`put` restarts at version 1, so the versions could coincide).
- Clients do not write into a sandbox while a resume is setting it up.
- The worker pool is the only user of its sandbox pool.
- A caller of the sandbox pool releases only what it holds, and once. The pool does not check this; `PoolTheorems.ReleaseSafeIff` says exactly which releases keep it sound, `PoolTheorems.DoubleRelease` what happens otherwise. For the worker pool as the caller it is proved, not assumed: its releases are part of the orchestrator's events.
- The durable store returns every snapshot it was given. The tiered store does with a tier that is written through and never evicts (`Durability.SnapshotsSurvive`), and no other does (`TieredLoss.KeepsIffDurable`).
- No namespace of a resumed actor continues another after a `:`, or their resumes share flights (`ResumeKeys.OneLeaderPerActor`, `ResumeKeys.NestedShareFlights`). That one resume of an actor leads at a time is a guard of the orchestrator's model and no hypothesis: `Leaders.LeadersAreGuarded` gets it from the singleflight.
- No namespace of a routed actor continues another after a `/`; `Routers.BindRefinesIff` says that this is exactly what the router's string keys need.
- Tier names are distinct; each tier's backend behaves as a map.

## Where the code and its documentation differ

The model follows the code.

- `orchestrator.py:497-499` says a lost worker is retired and its sandbox returned. The release carries a stale version, so it is always refused, or finds the record gone: `OrchestratorTheorems.LosersAreHarmless`, with a run in `Witnesses.ClaimIsLost`. The refusal is raised out of the resume, so the retry loop does not go on.
- `orchestrator.py:328-329` says a paused actor prefers the node it was paused on. A node that its client named first is kept (`Locality.NodeIsKept`), and then no idle worker is ever eligible, though all are on the node of the pause (`Locality.PauseReturnsIff`): each resume takes a fresh sandbox (`Locality.NamedElsewhereWaits`), whose worker is on that node too, since all workers are on the pool's (`Locality.AllAtHome`). `Witnesses.ElsewhereBootsFresh` is such a run. If no other node was named, the preference restricts nothing.
- `lifecycle.py:55-69` asks steps to be idempotent, and `:87-90` says a re-run does not provision twice. Of the four resume steps two are of the kind that a re-run never repeats (`ResumeWorkflow.LastingIff`); loading is repeated. That suffices for re-runs on one context to claim one worker (`ResumeWorkflow.ClaimsOnce`). But `resume_actor` starts each run on a new context, so the worker of a resume that fails after its claim is lost, and the next resume claims another.
- `worker_pool.py:22-25` has a released worker, or its sandbox, go back for the next actor. `Orphans.OrphanedIff` says exactly when a claimed worker is lost instead, among them a suspend or pause whose checkpoint fails (a run: `Witnesses.FailedPauseOrphans`); a lost worker stays lost (`Orphans.OrphanForever`) and takes one running actor's place for good (`Orphans.OrphansShrinkCapacity`).
- `router.py:28-31` says a binding exists only while an actor is RUNNING or RESUMING. While RESUMING there is none, and one outlives RUNNING exactly through the flip of a suspend or pause: `Routing.OutlivesRunningIff`, with a run in `Witnesses.RoutedWhilePausing`. Nor is a RUNNING actor always routed: `Routing.RunningUnroutedIff`, with runs in `Witnesses.RunningUnrouted` and `Witnesses.StaleSuspendUnroutes`. What holds of each binding is `OrchestratorTheorems.RouterIsSound`.
- `singleflight.py:17-18` and `:128-130` say late joiners inherit the flight's remaining budget. Each joiner waits for its own, counted from its own call: the two agree exactly if the deadlines are equal (`SingleflightModel.InheritsIff`), and `SingleflightModel.OutlivesFlight` is a run in which a joiner outlives the flight's. And a timeout raised by the work itself reaches a joiner with a budget as `BudgetExhausted`: `SingleflightModel.EarlyAnswerIff`, `SingleflightModel.TimeoutMistaken`.
- `tiered_store.py:13-14` says byte caps trigger eviction. Only the object count is compared, and `SIZE_BASED` evicts nothing: `TieredModel.LruEvictsAsPromisedIff`, `TieredModel.ByteCapIsIgnored`. The store's lock is never taken, and gets run between the tiers of a delete: `TieredRace.SurvivesIff` says when the reference comes back, `TieredRace.RevivedInside` shows it with every get over before the delete is.
- `_vfs/_base.py:360-367` says a snapshot of another tag is unaffected. It is deleted if its name begins like a leftover of this tag: `VfsModel.OthersSurviveIff`. A rename that fails after the old entry was removed loses that entry: `VfsModel.FailedSnapshotKeepsIff`.
- `_vfs/_base.py:380-391` presents restore as a rollback. After a failed rollback the next restore deletes the only copy left: `VfsModel.NextRestoreLosesAside`.

## Model

| member | source | states |
|---|---|---|
| `OrchestratorTheorems.WorkersAreExclusive` | src/agentscope_sandbox_ext/_orchestration/orchestrator.py:262-386 | In every reachable state two running actors name different workers in different sandboxes, and each worker record is claimed for its actor |
| `OrchestratorTheorems.TasksStayOffRunningWorkers` | src/agentscope_sandbox_ext/_orchestration/orchestrator.py:442-626 | No resume sets up, and no suspend gives back, a worker that a running actor names |
| `OrchestratorTheorems.RegisteredSandboxes` | src/agentscope_sandbox_ext/_orchestration/worker_pool.py:239-256 | Registered workers hold pairwise different sandboxes, all of them in use in the sandbox pool and none of them closed |
| `OrchestratorTheorems.RunningBounded` | src/agentscope_sandbox_ext/_pool.py:336-386 | The number of running actors never exceeds the sandbox pool's `max_size` |
| `OrchestratorTheorems.WarmIsIdle` | src/agentscope_sandbox_ext/_orchestration/worker_pool.py:276-309 | The warm registry never exceeds `max_warm_idle` and lists idle workers only; each idle worker outside it is one that a resume is about to claim |
| `OrchestratorTheorems.LifecycleEdges` | src/agentscope_sandbox_ext/_orchestration/orchestrator.py:165-196 | Every write of an actor record raises its version by one along an edge of the lifecycle; records carry an assignment exactly as their status says |
| `OrchestratorTheorems.WorkerVersionsAdvance` | src/agentscope_sandbox_ext/_orchestration/store.py:286-339 | A worker record changes only by a claim or release that raises its version by one, and worker ids are never used twice |
| `OrchestratorTheorems.LosersAreHarmless` | src/agentscope_sandbox_ext/_orchestration/orchestrator.py:495-502 | The drain that follows a lost claim leaves the worker registry and the sandbox pool exactly as they were |
| `Witnesses.ClaimIsLost` | src/agentscope_sandbox_ext/_orchestration/orchestrator.py:482-502 | A run in which two resumes pick one idle worker, one claims it and the other is about to drain it |
| `OrchestratorTheorems.DeadBranches` | src/agentscope_sandbox_ext/_orchestration/orchestrator.py:616-625 | The binding that follows a lost final write never happens, nor does finding the actor RUNNING once a resume leads |
| `OrchestratorTheorems.CopiesAreCurrent` | src/agentscope_sandbox_ext/_orchestration/orchestrator.py:262-386 | The copy of a record that an operation writes through is the stored record or an older one, with the status the operation last saw or wrote |
| `OrchestratorTheorems.LeaderIsCurrent` | src/agentscope_sandbox_ext/_orchestration/orchestrator.py:456-475 | A leading resume works on the very record that is stored unless the actor was crashed or is being deleted |
| `OrchestratorTheorems.HeldAlone` | src/agentscope_sandbox_ext/_orchestration/orchestrator.py:482-495 | The worker an operation holds is claimed for its actor, and neither another operation nor an actor has it |
| `OrchestratorTheorems.RouterIsSound` | src/agentscope_sandbox_ext/_orchestration/orchestrator.py:214-223 | A routed actor is routed to the assignment its stored record carries, and is not detached |
| `Routing.RoutedIff` | src/agentscope_sandbox_ext/_orchestration/orchestrator.py:304-379 | A binding goes exactly in the unbinding step of a suspend, pause or crash or in the removal of the record, and appears exactly when its actor becomes RUNNING |
| `Routing.OutlivesRunningIff` | src/agentscope_sandbox_ext/_orchestration/router.py:28-31 | A routed actor that stops RUNNING stays routed exactly when a suspend or pause flipped its record |
| `Routing.RunningUnroutedIff` | src/agentscope_sandbox_ext/_orchestration/orchestrator.py:304-379 | An actor that goes on RUNNING loses its route exactly to a crash not yet written, or to the unbinding of a suspend or pause begun on an older version of its record |
| `Witnesses.RoutedWhilePausing` | src/agentscope_sandbox_ext/_orchestration/orchestrator.py:336-349 | A run after which a PAUSING actor is still routed |
| `Witnesses.RunningUnrouted` | src/agentscope_sandbox_ext/_orchestration/orchestrator.py:376-379 | A run after which a RUNNING actor is not routed, with a crash not yet written |
| `Witnesses.StaleSuspendUnroutes` | src/agentscope_sandbox_ext/_orchestration/orchestrator.py:304-305 | A run in which a suspend that began before a crash unroutes the actor resumed after it |
| `OrchestratorTheorems.StateRoundTrip` | src/agentscope_sandbox_ext/_orchestration/orchestrator.py:533-544 | When an actor with a snapshot becomes RUNNING, its sandbox holds that snapshot, which is the tree of its last suspend or pause whose final write was accepted |
| `OrchestratorTheorems.LastSaveIsStored` | src/agentscope_sandbox_ext/_orchestration/orchestrator.py:307-312 | Whatever snapshot a record names is stored, and is the tree of the actor's last suspend or pause whose final write was accepted |
| `Durability.SnapshotsSurvive` | src/agentscope_sandbox_ext/_runtime/tiered_store.py:112-307 | With the tiered store as the durable one, a tier of which is written through and never evicts: over any run of the orchestrator, of other users and of the sweeper the store returns every snapshot taken, and under the one an actor's record names the tree of its last accepted suspend or pause |
| `OrchestratorTheorems.SavesWhatTheSandboxHolds` | src/agentscope_sandbox_ext/_orchestration/checkpoint.py:67-148 | A checkpoint stores, under a new reference, the contents of the sandbox of the worker as currently recorded |
| `OrchestratorTheorems.SnapshotsAreKept` | src/agentscope_sandbox_ext/_orchestration/checkpoint.py:73-78 | No event changes a snapshot once it is stored |
| `OrchestratorTheorems.RunningFilesAreIsolated` | src/agentscope_sandbox_ext/_orchestration/checkpoint.py:185-199 | What the sandbox of a running actor holds changes by writes into that sandbox only, whatever other actors do |
| `OrchestratorTheorems.OnlyFinalizeRuns` | src/agentscope_sandbox_ext/_orchestration/orchestrator.py:600-615 | Only the final step of a resume of that very actor makes it RUNNING |
| `OrchestratorTheorems.StepInv` | src/agentscope_sandbox_ext/_orchestration/orchestrator.py:124-386 | The combined invariant survives every event: actors, workers, sandboxes, routes, snapshots, idle workers |
| `OrchestratorTheorems.RunInv` | src/agentscope_sandbox_ext/_orchestration/orchestrator.py:124-386 | The combined invariant holds after any sequence of events |
| `Orphans.OrphanForever` | src/agentscope_sandbox_ext/_orchestration/orchestrator.py:367-386 | A claimed worker with no actor on it and no operation due to release it stays claimed for the rest of any run |
| `Orphans.OrphanedIff` | src/agentscope_sandbox_ext/_orchestration/orchestrator.py:262-386 | Over every event of every run, a claimed worker that someone holds is left claimed without a holder exactly when an operation that has it fails to restore or to checkpoint, finds the record gone at its check, or finds it gone or rewritten at its final write; or when its running actor is crashed at its current version or removed |
| `Orphans.StopsKeepTheirWorker` | src/agentscope_sandbox_ext/_orchestration/orchestrator.py:299-305 | A suspend or pause past its first flip always finds its worker; it goes on exactly when the checkpoint succeeds and otherwise ends with the worker lost; and then always gives it back, even if its actor has crashed and been resumed elsewhere |
| `Witnesses.FailedPauseOrphans` | src/agentscope_sandbox_ext/_orchestration/orchestrator.py:336-355 | A run of one actor, one pause and one failing checkpoint after which every operation has ended and the only sandbox is lost |
| `Orphans.OrphansShrinkCapacity` | src/agentscope_sandbox_ext/_pool.py:356-366 | Running actors and abandoned workers together never exceed `max_size` |
| `Liveness.ResumesOnIdle` | src/agentscope_sandbox_ext/_orchestration/orchestrator.py:229-258 | From every reachable state, a detached actor with a known template that nobody is resuming can be brought up on any idle worker that fits: RUNNING, routed, with its saved tree back, no other record changed |
| `Liveness.ResumesOnFresh` | src/agentscope_sandbox_ext/_orchestration/worker_pool.py:239-256 | The same on a fresh worker, if no idle worker fits and the sandbox pool has room |
| `Liveness.RunningStops` | src/agentscope_sandbox_ext/_orchestration/orchestrator.py:262-386 | From every reachable state a RUNNING actor can be suspended or paused; what its sandbox held is then its saved tree |
| `Locality.PauseReturnsIff` | src/agentscope_sandbox_ext/_orchestration/orchestrator.py:355-361 | However long after an accepted pause, and whoever runs in between, while the record lasts: the pause was on the pool's node, where all workers are; if no other node was named before, the node keeps no idle worker from the actor, and otherwise none is eligible for it |
| `Locality.PausePinsIff` | src/agentscope_sandbox_ext/_orchestration/orchestrator.py:355-361 | Whatever workers are registered: all those a resume may pick after the pause are on its node exactly when no other node was named before |
| `Locality.NodeIsKept` | src/agentscope_sandbox_ext/_orchestration/orchestrator.py:357-361 | Once a record names a node, every longer run keeps that node as long as the record exists |
| `Locality.AllAtHome` | src/agentscope_sandbox_ext/_orchestration/worker_pool.py:239-256 | Every registered worker, so also a fresh one, and every assignment of an actor is on the node the pool is configured with |
| `Locality.NamedElsewhereWaits` | src/agentscope_sandbox_ext/_orchestration/orchestrator.py:479-481 | An actor that names another node than the pool's waits for a sandbox from the pool at each round of the claim loop, whatever workers are idle |
| `Witnesses.ElsewhereBootsFresh` | src/agentscope_sandbox_ext/_orchestration/orchestrator.py:328-361 | A run in which an actor that names another node pauses, leaves an idle worker on the node of the pause that fits it but for the node, and resumes onto a fresh worker on that same node |
| `ActorSafety.MoveSafe` | src/agentscope_sandbox_ext/_orchestration/store.py:138-172 | A compare-and-swap write through a current copy keeps every other operation's copy consistent with the table |
| `ActorSafety.ActorStep` | src/agentscope_sandbox_ext/_orchestration/orchestrator.py:165-196 | Every event keeps the actor table and all copies of its records consistent, and follows the lifecycle edges |
| `WorkerSafety.LoserReleasesNothing` | src/agentscope_sandbox_ext/_orchestration/worker_pool.py:276-293 | `release_worker` with the copy of a claimer that lost is refused, or finds the worker gone |
| `WorkerSafety.HolderReleases` | src/agentscope_sandbox_ext/_orchestration/worker_pool.py:276-309 | `release_worker` by the holder always succeeds, into the warm registry while it has room and into retirement otherwise |
| `WorkerSafety.StaysExclusive` | src/agentscope_sandbox_ext/_orchestration/store.py:286-317 | A claim passes between an actor and its own operation, or starts from a worker nobody holds; so no worker gets two holders |
| `WorkerSafety.WorkerStep` | src/agentscope_sandbox_ext/_orchestration/worker_pool.py:218-309 | Every event keeps each claimed worker with at most one holder and each copy consistent with its record |
| `WorkerSafety.SweepSafe` | src/agentscope_sandbox_ext/_orchestration/worker_pool.py:364-384 | A sweep tick removes exactly the workers it lists, none of them claimed |
| `SandboxSafety.SandboxStep` | src/agentscope_sandbox_ext/_orchestration/worker_pool.py:239-350 | After every event the sandboxes handed out by the pool are exactly those of registered workers and of resumes about to register one, each with one owner |
| `RouterSafety.RouterStep` | src/agentscope_sandbox_ext/_orchestration/orchestrator.py:304-379 | Every event keeps each binding equal to the bound record's assignment |
| `SnapshotSafety.SnapshotStep` | src/agentscope_sandbox_ext/_orchestration/orchestrator.py:299-312 | Every event keeps each record's snapshot stored and equal to the last committed tree, and each sandbox being set up equal to its actor's snapshot |
| `IdleSafety.IdleStep` | src/agentscope_sandbox_ext/_orchestration/worker_pool.py:230-237 | Every event keeps unclaimed workers in the warm registry or in the hands of a resume about to claim exactly that record |
| `Orchestrators.Orchestrator.CreateActor` | src/agentscope_sandbox_ext/_orchestration/orchestrator.py:124-153 | The create event, from a reachable state to a reachable state; refused for an unknown template or an existing actor |
| `Orchestrators.Orchestrator.SweepWorkers` | src/agentscope_sandbox_ext/_orchestration/worker_pool.py:364-384 | A tick of the worker pool's sweeper, from a reachable state to a reachable state: no worker that anyone has is retired |
| `Orchestrators.Orchestrator.SweepSandboxes` | src/agentscope_sandbox_ext/_pool.py:515-529 | A tick of the sandbox pool's sweeper below a reachable orchestrator: every worker's sandbox stays in use |
| `Orchestrators.Orchestrator.ReadActor` | src/agentscope_sandbox_ext/_orchestration/orchestrator.py:229-239 | Over at once exactly without record or template or with the actor RUNNING, and then the actor is on a worker claimed for it |
| `Orchestrators.Orchestrator.ProbeActor` | src/agentscope_sandbox_ext/_orchestration/orchestrator.py:415-423 | The load step's completeness check never holds for a leading resume |
| `Orchestrators.Orchestrator.LoadActor` | src/agentscope_sandbox_ext/_orchestration/orchestrator.py:425-439 | Only an actor that has no assignment and no route is resumed, from the record as stored |
| `Orchestrators.Orchestrator.FlipToResuming` | src/agentscope_sandbox_ext/_orchestration/orchestrator.py:460-466 | The flip starts from the loaded record, adds one to its version and leaves the actor unrouted; it conflicts only with a crash or a delete, and ends only without a record |
| `Orchestrators.Orchestrator.RereadActor` | src/agentscope_sandbox_ext/_orchestration/orchestrator.py:466-475 | The re-read after a conflict never goes on |
| `Orchestrators.Orchestrator.AcquireWorker` | src/agentscope_sandbox_ext/_orchestration/orchestrator.py:479-481 | A picked worker is eligible, off the warm registry and held by nobody; the sandbox pool is asked only when no worker is eligible; the call ends only after five attempts |
| `Orchestrators.Orchestrator.TakeSandbox` | src/agentscope_sandbox_ext/_orchestration/worker_pool.py:239-256 | A sandbox that `acquire` returned is held from the pool and no worker has it |
| `Orchestrators.Orchestrator.RegisterWorker` | src/agentscope_sandbox_ext/_orchestration/worker_pool.py:239-256 | The new record is added under an id and with a sandbox that no other worker has |
| `Orchestrators.Orchestrator.ClaimWorker` | src/agentscope_sandbox_ext/_orchestration/orchestrator.py:482-495 | A claim starts from a worker nobody holds and makes this operation its only holder; it is lost only to a newer version of the record, and then changes nothing |
| `Orchestrators.Orchestrator.DrainLost` | src/agentscope_sandbox_ext/_orchestration/orchestrator.py:495-502 | The drain after a lost claim changes neither registry nor sandbox pool, and raises unless the worker is gone |
| `Orchestrators.Orchestrator.RestoreOwn` | src/agentscope_sandbox_ext/_orchestration/orchestrator.py:533-547 | On success the worker's sandbox holds the actor's snapshot; on failure the worker is lost |
| `Orchestrators.Orchestrator.RestoreGolden` | src/agentscope_sandbox_ext/_orchestration/orchestrator.py:547-562 | Reached only by an actor without a snapshot; ends exactly on a failure other than a missing snapshot, and then the worker is lost and no file changed |
| `Orchestrators.Orchestrator.CaptureGolden` | src/agentscope_sandbox_ext/_orchestration/orchestrator.py:560-579 | What the sandbox holds becomes the template's snapshot under a new reference, all others stay; failure is ignored |
| `Orchestrators.Orchestrator.CheckRunning` | src/agentscope_sandbox_ext/_orchestration/orchestrator.py:591-598 | The completeness check never holds; without a record the worker is lost |
| `Orchestrators.Orchestrator.FinalizeRunning` | src/agentscope_sandbox_ext/_orchestration/orchestrator.py:600-626 | Exactly if the stored record is still the one loaded: the actor runs on this worker, is routed there and has its saved tree back; otherwise nothing is written and the worker is lost |
| `Orchestrators.Orchestrator.RereadRunning` | src/agentscope_sandbox_ext/_orchestration/orchestrator.py:616-625 | After a lost final write nothing is bound |
| `Orchestrators.Orchestrator.ReadRunning` | src/agentscope_sandbox_ext/_orchestration/orchestrator.py:275-286 | Goes on exactly for a RUNNING actor (and, to suspend, a known template), which then is on a worker claimed for it |
| `Orchestrators.Orchestrator.FlipToStopping` | src/agentscope_sandbox_ext/_orchestration/orchestrator.py:288-297 | Goes on exactly if the record is still the RUNNING one read; the actor's worker then passes to the operation |
| `Orchestrators.Orchestrator.FetchWorker` | src/agentscope_sandbox_ext/_orchestration/orchestrator.py:300-300 | The worker is always found, and claimed for the actor |
| `Orchestrators.Orchestrator.Checkpoint` | src/agentscope_sandbox_ext/_orchestration/orchestrator.py:301-303 | On success what the recorded worker's sandbox holds is stored under a new reference; on failure the worker is lost |
| `Orchestrators.Orchestrator.UnbindActor` | src/agentscope_sandbox_ext/_orchestration/orchestrator.py:304-304 | The actor's route goes and no other; an actor resumed meanwhile keeps running, on another worker |
| `Orchestrators.Orchestrator.ReleaseWorker` | src/agentscope_sandbox_ext/_orchestration/orchestrator.py:305-305 | The release is never refused; the worker ends idle and warm, or gone |
| `Orchestrators.Orchestrator.CommitStop` | src/agentscope_sandbox_ext/_orchestration/orchestrator.py:307-321 | Either the record read is still stored and now names the saved tree, which is stored, with the actor unrouted; or the record is gone or newer and nothing changes |
| `Orchestrators.Orchestrator.UnbindCrashed` | src/agentscope_sandbox_ext/_orchestration/orchestrator.py:376-379 | The route, which was to where the record said, goes before the crash is written |
| `Orchestrators.Orchestrator.CommitCrash` | src/agentscope_sandbox_ext/_orchestration/orchestrator.py:377-386 | Written exactly over the record read: CRASHED, unrouted, and the worker of a running actor is lost |
| `Orchestrators.Orchestrator.FlipToDeleting` | src/agentscope_sandbox_ext/_orchestration/orchestrator.py:181-188 | Written exactly over the record read; a running actor is never flipped; a missing record goes on to the removal |
| `Orchestrators.Orchestrator.EraseActor` | src/agentscope_sandbox_ext/_orchestration/orchestrator.py:195-196 | Record and route are removed, and the worker of an actor resumed in between is lost |
| `InMemoryStores.InMemoryActorStore.Put` | src/agentscope_sandbox_ext/_orchestration/store.py:138-172 | `put`: insert without an expected version, replace on a matching one with the version bumped, else leave the table alone and report which error |
| `InMemoryStores.InMemoryActorStore.Get` | src/agentscope_sandbox_ext/_orchestration/store.py:127-136 | The record, or not found |
| `InMemoryStores.InMemoryActorStore.List` | src/agentscope_sandbox_ext/_orchestration/store.py:180-186 | Exactly the records of the namespace, each once |
| `InMemoryStores.InMemoryWorkerStore.Register` | src/agentscope_sandbox_ext/_orchestration/store.py:274-284 | Registration is refused for an id already present |
| `InMemoryStores.InMemoryWorkerStore.Claim` | src/agentscope_sandbox_ext/_orchestration/store.py:286-317 | `claim` with its four error cases |
| `InMemoryStores.InMemoryWorkerStore.Release` | src/agentscope_sandbox_ext/_orchestration/store.py:319-339 | `release` with its error cases |
| `InMemoryStores.InMemoryWorkerStore.SetState` | src/agentscope_sandbox_ext/_orchestration/store.py:341-362 | `set_state` with its error cases |
| `InMemoryStores.InMemoryWorkerStore.ListIdle` | src/agentscope_sandbox_ext/_orchestration/store.py:364-371 | Exactly the idle workers that match the constraints, each once |
| `InMemoryStores.SecondActorWriteConflicts` | src/agentscope_sandbox_ext/_orchestration/store.py:138-172 | Of two writes expecting the same version the second is refused |
| `InMemoryStores.SecondWorkerWriteConflicts` | src/agentscope_sandbox_ext/_orchestration/store.py:255-260 | Of any two transitions of a worker expecting the same version the second conflicts |
| `InMemoryStores.ReleaseUndoesClaim` | src/agentscope_sandbox_ext/_orchestration/store.py:220-227 | Release is the inverse of claim, up to the version |
| `Routers.InMemoryRouter.Resolve` | src/agentscope_sandbox_ext/_orchestration/router.py:58-60 | The assignment that this actor was last bound to, if it is bound |
| `Routers.InMemoryRouter.Bind` | src/agentscope_sandbox_ext/_orchestration/router.py:62-64 | This actor is bound anew and no other actor's binding changes |
| `Routers.InMemoryRouter.Unbind` | src/agentscope_sandbox_ext/_orchestration/router.py:66-68 | This actor is unbound and no other actor's binding changes |
| `Routers.BindRefines` | src/agentscope_sandbox_ext/_orchestration/router.py:62-64 | For such namespaces a bind on strings is a bind in a table keyed by actor |
| `Routers.BindRefinesIff` | src/agentscope_sandbox_ext/_orchestration/router.py:62-64 | A bind never routes another actor, whatever was bound before, exactly when no namespace continues another after a slash |
| `Names.UnambiguousIff` | src/agentscope_sandbox_ext/_orchestration/model.py:97-98 | Names joined with a separator tell all actors of a set of namespaces apart exactly when no namespace continues another after the separator |
| `WorkerPools.WorkerPool.PickIdle` | src/agentscope_sandbox_ext/_orchestration/worker_pool.py:230-237 | Any eligible idle worker, off the warm registry; none only if no worker is eligible |
| `WorkerPools.WorkerPool.BeginAcquire` | src/agentscope_sandbox_ext/_orchestration/worker_pool.py:218-243 | `acquire_worker` up to its first wait: an eligible idle worker, or a call into the sandbox pool exactly if none is eligible |
| `WorkerPools.WorkerPool.Materialise` | src/agentscope_sandbox_ext/_orchestration/worker_pool.py:239-256 | A fresh worker at version 1 around the sandbox |
| `WorkerPools.WorkerPool.ClaimForActor` | src/agentscope_sandbox_ext/_orchestration/worker_pool.py:258-274 | The store's claim with the copy's version |
| `WorkerPools.WorkerPool.RetireWorker` | src/agentscope_sandbox_ext/_orchestration/worker_pool.py:332-350 | Off the registry, record deleted, sandbox back to the pool |
| `WorkerPools.WorkerPool.Release` | src/agentscope_sandbox_ext/_orchestration/worker_pool.py:276-309 | `release_worker`: refused, gone, warm or retired, with the whole new registry |
| `WorkerPools.WorkerPool.SweepOnce` | src/agentscope_sandbox_ext/_orchestration/worker_pool.py:364-384 | One tick retires exactly the warm workers idle for longer than `idle_ttl` |
| `PoolTheorems.CapacityHolds` | src/agentscope_sandbox_ext/_pool.py:356-366 | Free, in use and pending never exceed `max_size`; pending is the number of provisions in flight; factory calls never exceed pending or `max_concurrent_provisions` |
| `PoolTheorems.HealthyReleaseIsKept` | src/agentscope_sandbox_ext/_pool.py:450-456 | A healthy release always goes to the end of the free list; the pool is never full |
| `PoolTheorems.PrewarmedIsKept` | src/agentscope_sandbox_ext/_pool.py:588-602 | A finished prewarm provision always goes to the free list; it is never surplus |
| `PoolTheorems.OneOfEach` | src/agentscope_sandbox_ext/_pool.py:308-459 | Every sandbox the factory made is in exactly one place: free, held, in one operation's hands, or closed once |
| `PoolTheorems.HandOutIsExclusive` | src/agentscope_sandbox_ext/_pool.py:341-351 | Over every run whose releases are by the present holder, what acquire returns nobody holds, no other operation has, and nobody has closed |
| `PoolTheorems.ReleaseSafeIff` | src/agentscope_sandbox_ext/_pool.py:441-456 | A release keeps what the pool guarantees exactly when the caller is the present holder or the sandbox is not in use; the pool itself asks neither |
| `PoolTheorems.DoubleRelease` | src/agentscope_sandbox_ext/_pool.py:441-456 | A run with one release too many after which one sandbox has two callers |
| `PoolTheorems.ClosedForGood` | src/agentscope_sandbox_ext/_pool.py:405-408 | A closed sandbox is never free or held again in any longer run |
| `PoolTheorems.StrategyOrder` | src/agentscope_sandbox_ext/_pool.py:411-421 | fifo pops the sandbox idle longest, lifo the one idle shortest |
| `PoolTheorems.SweepCuts` | src/agentscope_sandbox_ext/_pool.py:515-529 | One sweep tick closes exactly the prefix of the free list idle longer than `idle_ttl`, in order |
| `PoolSafety.StepSafe` | src/agentscope_sandbox_ext/_pool.py:308-614 | Conservation, exact `_in_use`, capacity and order survive every event |
| `PoolSafety.RunSafe` | src/agentscope_sandbox_ext/_pool.py:308-614 | They hold after any sequence of events |
| `SandboxPools.SandboxPool.EnterAcquire` | src/agentscope_sandbox_ext/_pool.py:336-386 | The locked section of acquire: candidate, provision or wait, as one event |
| `SandboxPools.SandboxPool.FinishGrowth` | src/agentscope_sandbox_ext/_pool.py:357-366 | A provision turns its pending slot into a sandbox in use |
| `SandboxPools.SandboxPool.AbandonGrowth` | src/agentscope_sandbox_ext/_pool.py:497-500 | A provision that failed gives its slot up, once it has the lock again |
| `SandboxPools.SandboxPool.Discard` | src/agentscope_sandbox_ext/_pool.py:405-408 | A failed candidate leaves `_in_use` and is closed |
| `SandboxPools.SandboxPool.Release` | src/agentscope_sandbox_ext/_pool.py:423-459 | Release by any caller, as one event: closed if broken, else kept, ignored if not in use; the pool stays sound exactly when the release was the holder's or ignored |
| `SandboxPools.SandboxPool.SweepOnce` | src/agentscope_sandbox_ext/_pool.py:515-529 | The loop over the free list computes the sweep and returns what to close, oldest first |
| `SandboxPools.SandboxPool.StartPrewarm` | src/agentscope_sandbox_ext/_pool.py:558-570 | The deficit leads neither past `min_warm` nor past `max_size` |
| `SandboxPools.SandboxPool.ReserveWarm` | src/agentscope_sandbox_ext/_pool.py:577-580 | A prewarm slot is reserved only while there is room |
| `SandboxPools.SandboxPool.FinishWarm` | src/agentscope_sandbox_ext/_pool.py:588-602 | The prewarmed sandbox is kept, never surplus |
| `SandboxPools.SandboxPool.Acquire` | src/agentscope_sandbox_ext/_pool.py:308-409 | Run alone, with a provision slot free in case no candidate is healthy: the first healthy pooled sandbox in strategy order, closing exactly the unhealthy ones before it; a fresh one if none is healthy; a wait only with nothing free and no room |
| `SingleflightModel.OneFnPerKey` | src/agentscope_sandbox_ext/_orchestration/singleflight.py:160-176 | At most one flight per key is running or about to run its work |
| `ResumeKeys.OneLeaderPerActor` | src/agentscope_sandbox_ext/_orchestration/orchestrator.py:51-52 | Among unfinished flights under resume keys, two are one flight exactly when they resume one actor, for namespaces not nested after a colon |
| `Leaders.LeadersAreGuarded` | src/agentscope_sandbox_ext/_orchestration/orchestrator.py:200-227 | The orchestrator composed with its singleflight takes events of the orchestrator's own model only: when the work of a flight starts, no other resume of its actor is in progress |
| `Leaders.OneFlightEach` | src/agentscope_sandbox_ext/_orchestration/orchestrator.py:219-227 | Each resume in progress is the work of exactly one flight under way |
| `ResumeKeys.NestedShareFlights` | src/agentscope_sandbox_ext/_orchestration/orchestrator.py:51-52 | For any two nested namespaces, a run in which the resume of one's actor joins the flight of the other's |
| `SingleflightModel.StartsAreLeaders` | src/agentscope_sandbox_ext/_orchestration/singleflight.py:186-191 | The work of each flight is started at most once, of exactly those flights that have left the schedule, each for the one caller that leads it |
| `SingleflightModel.AnswersAreShared` | src/agentscope_sandbox_ext/_orchestration/singleflight.py:178-199 | A leader returns its flight's outcome; a joiner the same, or, only with a budget, `BudgetExhausted` |
| `SingleflightModel.EarlyAnswerIff` | src/agentscope_sandbox_ext/_orchestration/singleflight.py:211-216 | A joiner that comes back before its deadline gets the outcome exactly when it has no budget or the work did not raise a timeout |
| `SingleflightModel.TimeoutMistaken` | src/agentscope_sandbox_ext/_orchestration/singleflight.py:211-216 | A run in which a joiner comes back before its deadline and is told that its budget ran out |
| `SingleflightModel.InheritsIff` | src/agentscope_sandbox_ext/_orchestration/singleflight.py:145-176 | Over every later run a waiting joiner may give up when the flight's budget has run out, and only then, exactly if its own deadline equals the flight's |
| `SingleflightModel.CallsWithOwnBudget` | src/agentscope_sandbox_ext/_orchestration/singleflight.py:201-218 | A joiner's deadline is counted from its own call, and one that has passed turns it away whatever is left of the flight's budget |
| `SingleflightModel.OutlivesFlight` | src/agentscope_sandbox_ext/_orchestration/singleflight.py:206-218 | A run in which a joiner still waits, and may not give up, after the flight's budget has run out |
| `SingleflightModel.TimeoutDisturbsNobody` | src/agentscope_sandbox_ext/_orchestration/singleflight.py:206-218 | A joiner's timeout ends no flight and changes no other caller |
| `SingleflightModel.JoinersAreCounted` | src/agentscope_sandbox_ext/_orchestration/singleflight.py:163-163 | `joiner_count` is the number of waiting joiners |
| `SingleflightModel.FinalizeRemovesOwn` | src/agentscope_sandbox_ext/_orchestration/singleflight.py:220-225 | Finalizing removes the leader's own flight |
| `SingleflightModel.LateCallersJoin` | src/agentscope_sandbox_ext/_orchestration/singleflight.py:160-165 | Until then every caller of the key joins it |
| `SingleflightModel.StepSafe` | src/agentscope_sandbox_ext/_orchestration/singleflight.py:145-231 | Every event keeps these facts |
| `Singleflights.Singleflight.Enter` | src/agentscope_sandbox_ext/_orchestration/singleflight.py:145-176 | Join the key's flight, counting the joiner, be turned away from it with the budget spent, or register a new one |
| `Singleflights.Singleflight.Complete` | src/agentscope_sandbox_ext/_orchestration/singleflight.py:186-199 | The end of the work is cached on the flight |
| `Singleflights.Singleflight.Share` | src/agentscope_sandbox_ext/_orchestration/singleflight.py:201-218 | A joiner of a finished flight takes its outcome and leaves the count |
| `Singleflights.Singleflight.GiveUp` | src/agentscope_sandbox_ext/_orchestration/singleflight.py:206-218 | A joiner that gives up changes the joiner count and nothing else |
| `Singleflights.Singleflight.Finish` | src/agentscope_sandbox_ext/_orchestration/singleflight.py:220-225 | The popped entry is the leader's own flight |
| `TieredModel.RunRefines` | src/agentscope_sandbox_ext/_runtime/tiered_store.py:112-307 | Over any sequence of put, get, copy, delete and eviction the tiers represent the plain map |
| `TieredModel.GetReturnsWhatWasPut` | src/agentscope_sandbox_ext/_runtime/tiered_store.py:154-170 | After any such run get returns the put bytes of every undeleted reference and KeyError otherwise |
| `TieredLoss.KeepsIffDurable` | src/agentscope_sandbox_ext/_runtime/tiered_store.py:276-313 | A store that can be written to keeps everything over every run exactly when some write-through tier never evicts |
| `TieredModel.CopiesAgree` | src/agentscope_sandbox_ext/_runtime/tiered_store.py:134-145 | All copies of a reference are equal, and every tier tracks exactly what it holds |
| `TieredModel.ListIsLive` | src/agentscope_sandbox_ext/_runtime/tiered_store.py:217-228 | The tiers together list exactly the actor's live references |
| `TieredModel.GetPromotes` | src/agentscope_sandbox_ext/_runtime/tiered_store.py:172-198 | After a hit the reference is found no lower, and in every write-through tier above that accepted it |
| `TieredModel.OvertakenRevivesIff` | src/agentscope_sandbox_ext/_runtime/tiered_store.py:154-212 | The case of a delete that runs as a whole between a hit and its promotions: it is undone exactly when a tier was still to be written |
| `TieredRace.SurvivesIff` | src/agentscope_sandbox_ext/_runtime/tiered_store.py:154-212 | Whatever gets and sweeps run, tier by tier, while a reference is deleted: a tier holds it afterwards exactly if it was written after the delete passed it and not swept since, so the store finds it, with its old bytes, exactly if there is such a tier |
| `TieredRace.GetsAgree` | src/agentscope_sandbox_ext/_runtime/tiered_store.py:154-198 | Each of those gets returns the deleted bytes or KeyError |
| `TieredRace.RevivedInside` | src/agentscope_sandbox_ext/_runtime/tiered_store.py:200-212 | A run in which every get is over before the delete is through, and the reference is back |
| `TieredModel.LruEvictsAsPromisedIff` | src/agentscope_sandbox_ext/_runtime/tiered_store.py:276-313 | An LRU pass evicts when a cap is exceeded, as documented, exactly unless only the byte cap is |
| `TieredModel.ByteCapIsIgnored` | src/agentscope_sandbox_ext/_runtime/tiered_store.py:309-313 | For every byte cap and policy there is a tier over its cap from which no pass evicts |
| `TieredModel.RepeatedGetHitsNoLower` | src/agentscope_sandbox_ext/_runtime/tiered_store.py:154-198 | With no eviction in between, a later get hits no lower a tier |
| `TieredModel.EvictRefines` | src/agentscope_sandbox_ext/_runtime/tiered_store.py:276-307 | An eviction pass changes no answer as long as some durable tier remains |
| `TieredStores.TieredSnapshotStore.Put` | src/agentscope_sandbox_ext/_runtime/tiered_store.py:127-152 | The write-through loop; refused without a write-through tier |
| `TieredStores.TieredSnapshotStore.Get` | src/agentscope_sandbox_ext/_runtime/tiered_store.py:154-198 | The search loop and the promotion loop with its swallowed failures |
| `TieredStores.TieredSnapshotStore.Copy` | src/agentscope_sandbox_ext/_runtime/tiered_store.py:230-238 | Copy is get followed by put |
| `TieredStores.TieredSnapshotStore.Delete` | src/agentscope_sandbox_ext/_runtime/tiered_store.py:200-212 | Deletion from every tier and from the tracking |
| `TieredStores.TieredSnapshotStore.List` | src/agentscope_sandbox_ext/_runtime/tiered_store.py:217-228 | Every matching reference once, however many tiers hold it |
| `TieredStores.TieredSnapshotStore.EvictOldest` | src/agentscope_sandbox_ext/_runtime/tiered_store.py:282-293 | An LRU pass deletes exactly the excess over the cap, and every survivor was accessed no earlier than every victim |
| `TieredStores.TieredSnapshotStore.EvictExpired` | src/agentscope_sandbox_ext/_runtime/tiered_store.py:295-307 | A TTL pass deletes exactly the expired references |
| `TieredStores.TieredSnapshotStore.SweepOnce` | src/agentscope_sandbox_ext/_runtime/tiered_store.py:270-274 | A sweep gives each tier its own pass and leaves the others alone |
| `Lifecycle.RerunIsOneRun` | src/agentscope_sandbox_ext/_orchestration/lifecycle.py:79-90 | Under the contract the documentation asks of steps: however many runs fail, each step is executed at most once in all, in order; a finished re-run ends like one uninterrupted run |
| `Lifecycle.ResumesAtFailure` | src/agentscope_sandbox_ext/_orchestration/lifecycle.py:84-85 | A re-run resumes at the step that failed |
| `Lifecycle.LastingOnce` | src/agentscope_sandbox_ext/_orchestration/lifecycle.py:84-90 | A step that completes itself, and that nothing undoes, is executed successfully at most once over all re-runs, whatever the other steps do, note or leave half done |
| `ResumeWorkflow.LastingIff` | src/agentscope_sandbox_ext/_orchestration/orchestrator.py:410-626 | Of the four resume steps exactly claiming and restoring are of that kind |
| `ResumeWorkflow.ClaimsOnce` | src/agentscope_sandbox_ext/_orchestration/orchestrator.py:448-497 | Re-runs of a resume on one context claim one worker at most, and restore once at most |
| `ResumeWorkflow.LoadsTwice` | src/agentscope_sandbox_ext/_orchestration/orchestrator.py:425-439 | From every resumable record, a re-run after a failed claim loads again |
| `Lifecycle.Workflow.Run` | src/agentscope_sandbox_ext/_orchestration/lifecycle.py:98-113 | The loop: skip complete steps, check, execute, stop at the first failure |
| `VfsModel.RestoreBringsBack` | src/agentscope_sandbox_ext/_vfs/_base.py:282-449 | Over any run of snapshots, mutations and restores, failing ones included, restoring a tag brings back what the plain map holds for it, or KeyError |
| `VfsModel.RestoreIsLastSave` | src/agentscope_sandbox_ext/_vfs/_base.py:282-449 | Over any run, a restore brings back the workdir as it was at the tag's last snapshot that got past its copy, or what its failed removal left, or nothing if its rename failed |
| `VfsModel.RestoreWithoutSave` | src/agentscope_sandbox_ext/_vfs/_base.py:408-410 | Without such a snapshot a restore raises KeyError |
| `VfsModel.OthersSurviveIff` | src/agentscope_sandbox_ext/_vfs/_base.py:360-378 | Another entry survives a snapshot exactly when its name does not begin like a leftover of the tag, and then unchanged |
| `VfsModel.FailedSnapshotKeepsIff` | src/agentscope_sandbox_ext/_vfs/_base.py:343-351 | A failed snapshot keeps the tag's earlier entry exactly when it failed before removing it |
| `VfsModel.RestoreUndoesMutation` | src/agentscope_sandbox_ext/_vfs/_base.py:380-397 | Restore after a snapshot undoes any mutation in between |
| `VfsModel.FailedRestoreKeepsIff` | src/agentscope_sandbox_ext/_vfs/_base.py:424-443 | A failed restore leaves the workdir exactly when the rollback worked; otherwise it is in the aside copy |
| `VfsModel.NextRestoreLosesAside` | src/agentscope_sandbox_ext/_vfs/_base.py:429-432 | The restore after a failed rollback deletes that copy |
| `VfsModel.VfsWorkspace.TakeSnapshot` | src/agentscope_sandbox_ext/_vfs/_base.py:309-358 | The ordered mutations of snapshot, with every fault |
| `VfsModel.VfsWorkspace.RestoreTag` | src/agentscope_sandbox_ext/_vfs/_base.py:403-449 | The ordered mutations of restore, with every fault |
| `VfsModel.VfsWorkspace.CleanupStale` | src/agentscope_sandbox_ext/_vfs/_base.py:369-378 | Exactly the leftovers of the tag are removed |
| `VfsModel.SwapIsAtomicIff` | src/agentscope_sandbox_ext/_orchestration/checkpoint.py:246-269 | The bridge's swap succeeds or leaves the workdir alone, unless the rollback fails |
| `VfsModel.SwapIsRestore` | src/agentscope_sandbox_ext/_orchestration/checkpoint.py:246-269 | Over an existing workdir the swap ends as a restore of the same tree does |
| `VfsModel.VfsWorkspace.SwapWorkdir` | src/agentscope_sandbox_ext/_orchestration/checkpoint.py:255-269 | The ordered mutations of the swap, with every fault |
| `Frames.RoundTripIff` | src/agentscope_sandbox_ext/_firecracker/_guest_agent.py:66-79 | The receiver recovers exactly the sent bodies, and only then, if each is between 1 byte and 64 MiB |
| `Frames.DecodeStream` | src/agentscope_sandbox_ext/_firecracker/_guest_agent.py:66-73 | Otherwise it recovers those before the first out of range, and stops there |
| `Frames.DecodeCut` | src/agentscope_sandbox_ext/_firecracker/_guest_agent.py:174-181 | A stream cut anywhere yields exactly the frames it wholly contains and then ends |
| `Frames.ContainedFits` | src/agentscope_sandbox_ext/_firecracker/_guest_agent.py:174-181 | Those are as many as fit: the next one would not |
| `Frames.HeaderRoundTrip` | src/agentscope_sandbox_ext/_firecracker/_guest_agent.py:69-79 | The four header bytes give the length back |
| `Frames.RecvExactly` | src/agentscope_sandbox_ext/_firecracker/_guest_agent.py:55-63 | Exactly n bytes off the front of the stream, in whatever chunks they arrive, or EOF |
| `Frames.RecvFrame` | src/agentscope_sandbox_ext/_firecracker/_guest_agent.py:66-73 | One frame, EOF, or a length out of range |
| `Frames.ServeConnection` | src/agentscope_sandbox_ext/_firecracker/_guest_agent.py:174-198 | The loop answers every frame of the stream, in order, and stops where decoding does |
| `Frames.Exchange` | src/agentscope_sandbox_ext/_firecracker/_backend.py:128-172 | On a connection of its own a client reads back the answer to its request exactly when request and answer are in range |

## Left out

- Orchestrators.Orchestrator: the class composes the actor store and the worker pool as objects, but keeps the routing table as a dictionary keyed by actor (`Routers.InMemoryRouter` behaves as one) and the durable store and sandbox contents as one value; copies that the stores return are values, so aliasing of a returned record is not modelled.
- The first read of `resume_actor` (orchestrator.py:215), which only builds the singleflight key.
- Snapshot scopes: a checkpoint is one atomic copy of the sandbox's tree, so a client's write during the copy is not modelled, nor is the in-workspace snapshot a FULL scope takes first.
- ResumeWorkflow.ClaimsOnce: the record changes through the workflow's own steps only; what other operations do between re-runs is in the orchestrator's model, which starts each resume afresh as `resume_actor` does.
- The backoff between claim attempts: a sleep is one more place to interleave, which the model already has between any two attempts.
- `SandboxPool.aclose`, `WorkerPool.aclose`, task cancellation, and everything after a pool is closed.
- Wake-ups of blocked acquires: a waiter may go on whenever the free list is not empty and may time out at any time; that a freed slot wakes nobody is in the model, fairness is not.
- SandboxPools.SandboxPool.Acquire: run with no other task in between, so it is not called where it would block on the provision semaphore; under interleaving acquires take the pool's events one by one.
- The scheduler's random choice is any eligible worker.
- Cold-boot contents of a reused worker, and which golden snapshot wins under concurrent first boots: the code does not fix them.
- SingleflightModel.InheritsIff: the clock is one value that may advance between any two events; a joiner whose deadline has passed may still be woken by the flight first.
- Durability.SnapshotsSurvive: how a tree becomes bytes, and the name of a snapshot, are parameters; that a durable tier is needed is `TieredLoss.KeepsIffDurable`, about the store alone.
- TieredModel.RunRefines: one call is one step, a backend neither fails nor changes on its own (only promotions may fail), except in `TieredRace`; `put_tree` and compression are not modelled.
- VfsModel.RestoreBringsBack: cleaning up leftovers always succeeds, tags of restore are entry names, and ownership of paths outside the snapshots root is not modelled.
- Frames.ServeConnection: a body is a sequence of bytes; JSON, base64 and the handlers themselves are a function from request to answer.
- Firecracker, Docker and VFS back ends, workspace managers, Postgres, MinIO and local stores, metrics and logging: plumbing around the parts above.
