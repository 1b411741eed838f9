// The orchestrator (orchestrator.py) over its stores, worker pool and checkpoint
// bridge (checkpoint.py), as one transition system.
//
// A task is a coroutine suspended at an await; advancing it runs the code up
// to its next await.  Every call into a store is a step of its own, so tasks
// interleave at least as freely as under the in-memory stores.  Four groups of
// awaits run as one step, because with the in-memory stores no task can run in
// between: picking an idle worker and taking it off the warm registry, a whole
// `release_worker`, a whole tick of the warm-idle sweeper, and a table write
// with the routing update next to it (finalize, delete).
module OrchestratorModel {
  import opened Wrappers
  import opened Model
  import opened Stores
  import opened WorkerPoolModel
  import P = PoolModel

  type TaskId = P.OpId
  type Tree = map<string, seq<bv8>>

  // The cap on claim attempts of one resume.
  const MAX_CLAIM_RETRIES: nat := 5

  // The reserved selector key under which a pause records its node.
  const PAUSE_NODE := "__pause_node__"

  datatype Kind = Suspend | Pause

  // The claim loop: pick an idle worker, or wait for a pooled sandbox and
  // register it; then claim, and drain a worker lost to another claimer.
  datatype ClaimStage =
    | Acquire
    | Wait
    | Register(sandbox: P.Sandbox)
    | Claim(worker: Worker)
    | Drain(worker: Worker)

  // Setting the claimed worker's sandbox up, then the final flip.
  datatype SetupStage = Restore | Golden(golden: SnapshotRef) | Capture | Check | Finalize

  // resume_actor: the workflow run by the singleflight leader.
  datatype ResumeStage =
    | Read
    | Probe(template: Template)
    | Load(template: Template)
    | Flip(template: Template, actor: Actor)
    | Reread(template: Template)
    | Claiming(template: Template, actor: Actor, attempt: nat, claim: ClaimStage)
    | Setup(template: Template, actor: Actor, worker: Worker, setup: SetupStage)
    | Lost(assignment: Assignment)

  // suspend_actor and pause_actor between the first flip and the last one.
  datatype HoldStage =
    | Fetch
    | Save(worker: Worker)
    | Unbind(worker: Worker, saved: SnapshotRef, tree: Tree)
    | Release(worker: Worker, saved: SnapshotRef, tree: Tree)

  datatype StopStage =
    | StopRead
    | StopFlip(actor: Actor)
    | Holding(actor: Actor, hold: HoldStage)
    | StopCommit(actor: Actor, saved: SnapshotRef, tree: Tree)

  datatype CrashStage = CrashRead | CrashUnbind(actor: Actor) | CrashCommit(actor: Actor)

  datatype DeleteStage = DeleteRead | DeleteFlip(actor: Actor) | DeleteReread | DeleteErase

  datatype Task =
    | Resume(ref: ActorRef, resume: ResumeStage)
    | Stop(ref: ActorRef, kind: Kind, stop: StopStage)
    | Crash(ref: ActorRef, crash: CrashStage)
    | Delete(ref: ActorRef, delete: DeleteStage)
    | Ended(ref: ActorRef)     // returned or raised

  predicate Starting(t: Task) {
    match t
    case Resume(_, st) => st.Read?
    case Stop(_, _, st) => st.StopRead?
    case Crash(_, st) => st.CrashRead?
    case Delete(_, st) => st.DeleteRead?
    case Ended(_) => false
  }

  // snapshots: the durable store.  trees: contents of each sandbox.  saved: for
  // each actor the tree of its last committed suspend or pause (history).
  datatype Disk = Disk(snapshots: map<SnapshotRef, Tree>, trees: map<P.Sandbox, Tree>, saved: map<ActorRef, Tree>)

  datatype Catalog = Catalog(templates: map<string, Template>, golden: map<string, SnapshotRef>)

  datatype Sys = Sys(actors: Actors, tasks: map<TaskId, Task>, bindings: map<ActorRef, Assignment>, reg: Registry,
                     disk: Disk, catalog: Catalog)

  // How an I/O operation ends; `Absent` is the bridge's own CheckpointError.
  datatype IO = Succeeds | Absent | Fails

  // What the environment decides in one step: the scheduler's pick, the
  // outcome of I/O, fresh identifiers, the kind of a new sandbox, whether a
  // released sandbox is still alive, and the wall clock.
  datatype Choice = Choice(pick: WorkerId, io: IO, snapshot: SnapshotRef, worker: WorkerId, kind: string, alive: bool,
                           at: Time)

  datatype Event =
    | Create(ref: ActorRef, templateId: string, selector: Labels, at: Time)
    | RegisterTemplate(template: Template)
    | Begin(id: TaskId, task: Task)
    | Advance(id: TaskId, choice: Choice)
    | PoolStep(event: P.Event)
    | SweepWarm(order: seq<WorkerId>)
    | Write(sandbox: P.Sandbox, tree: Tree)

  // ---- pieces of code shared by several steps ----

  function WithStatus(a: Actor, st: ActorStatus): Actor {
    a.(status := st)
  }

  function ConstraintsFor(t: Template, a: Actor): Constraints {
    Constraints(t.sandboxClass,
                map k | k in a.selector && k != PAUSE_NODE :: a.selector[k],
                map[],
                if PAUSE_NODE in a.selector then Some(a.selector[PAUSE_NODE]) else None)
  }

  function AssignmentFor(ref: ActorRef, w: Worker, at: Time): Assignment {
    Assignment(ref.actorId, w.workerId, w.sandboxClass, w.node, at)
  }

  function TreeOf(d: Disk, w: Worker): Tree {
    if w.sandbox.Some? && w.sandbox.value in d.trees then d.trees[w.sandbox.value] else map[]
  }

  // ---- steps ----

  function Goto(s: Sys, id: TaskId, t: Task): Sys {
    s.(tasks := s.tasks[id := t])
  }

  // The task returns or raises.
  function End(s: Sys, id: TaskId, ref: ActorRef): Sys {
    Goto(s, id, Ended(ref))
  }

  function GotoResume(s: Sys, id: TaskId, ref: ActorRef, st: ResumeStage): Sys {
    Goto(s, id, Resume(ref, st))
  }

  function StepRead(s: Sys, id: TaskId, ref: ActorRef): Sys {
    if ref !in s.actors then End(s, id, ref)
    else
      var a := s.actors[ref];
      if a.status.RUNNING? && a.assignment.Some? then End(s, id, ref)
      else if a.templateId !in s.catalog.templates then End(s, id, ref)
      else GotoResume(s, id, ref, Probe(s.catalog.templates[a.templateId]))
  }

  function StepProbe(s: Sys, id: TaskId, ref: ActorRef, tm: Template): Sys {
    if ref !in s.actors then End(s, id, ref)
    else
      var a := s.actors[ref];
      if a.status.RUNNING? && a.assignment.Some? then GotoResume(s, id, ref, Flip(tm, a))
      else GotoResume(s, id, ref, Load(tm))
  }

  function StepLoad(s: Sys, id: TaskId, ref: ActorRef, tm: Template): Sys {
    if ref !in s.actors || !Detached(s.actors[ref].status) then End(s, id, ref)
    else GotoResume(s, id, ref, Flip(tm, s.actors[ref]))
  }

  function StepFlip(s: Sys, id: TaskId, ref: ActorRef, tm: Template, a: Actor, at: Time): Sys {
    match ActorPut(s.actors, WithStatus(a, RESUMING), Some(a.version), at)
    case ActorStored(actors, rec) => GotoResume(s.(actors := actors), id, ref, Claiming(tm, rec, 0, Acquire))
    case ActorConflict => GotoResume(s, id, ref, Reread(tm))
    case ActorMissing => End(s, id, ref)
  }

  function StepReread(s: Sys, id: TaskId, ref: ActorRef, tm: Template): Sys {
    if ref !in s.actors || !s.actors[ref].status.RESUMING? then End(s, id, ref)
    else GotoResume(s, id, ref, Claiming(tm, s.actors[ref], 0, Acquire))
  }

  // acquire_worker up to its first wait: an eligible idle worker, taken off the
  // warm registry, or else a call into the sandbox pool.
  function StepAcquire(c: Config, s: Sys, id: TaskId, ref: ActorRef, tm: Template, a: Actor, attempt: nat,
                       pick: WorkerId): Option<Sys> {
    var cs := ConstraintsFor(tm, a);
    if attempt >= MAX_CLAIM_RETRIES then Some(End(s, id, ref))
    else if Eligible(s.reg.workers, cs, pick) then
      Some(GotoResume(s.(reg := s.reg.(warm := s.reg.warm - {pick})), id, ref,
                      Claiming(tm, a, attempt, Claim(s.reg.workers[pick]))))
    else if exists w :: w in s.reg.workers && Eligible(s.reg.workers, cs, w) then None
    else if id in s.reg.pool.ops then None
    else
      Some(GotoResume(s.(reg := s.reg.(pool := P.BeginAcquire(s.reg.pool, id))), id, ref,
                      Claiming(tm, a, attempt, Wait)))
  }

  function StepWait(c: Config, s: Sys, id: TaskId, ref: ActorRef, tm: Template, a: Actor, attempt: nat): Option<Sys> {
    if id !in s.reg.pool.ops then None
    else
      match s.reg.pool.ops[id]
      case AcqDone(sb) =>
        Some(GotoResume(s.(reg := s.reg.(pool := P.HandOut(s.reg.pool, id, sb, OWNER))), id, ref,
                        Claiming(tm, a, attempt, Register(sb))))
      case AcqRaised => Some(End(s.(reg := s.reg.(pool := P.Finish(s.reg.pool, id))), id, ref))
      case _ => None
  }

  function StepRegister(c: Config, s: Sys, id: TaskId, ref: ActorRef, tm: Template, a: Actor, attempt: nat,
                        sb: P.Sandbox, unused: WorkerId, kind: string): Option<Sys> {
    if unused in s.reg.usedIds then None
    else
      var w := NewWorker(c, unused, kind, sb);
      Some(GotoResume(s.(reg := WorkerPoolModel.Register(s.reg, w)), id, ref, Claiming(tm, a, attempt, Claim(w))))
  }

  function StepClaim(s: Sys, id: TaskId, ref: ActorRef, tm: Template, a: Actor, attempt: nat, w: Worker,
                     at: Time): Sys {
    match WorkerClaim(s.reg.workers, w.workerId, AssignmentFor(ref, w, at), w.version)
    case WorkerStored(workers, rec) =>
      GotoResume(s.(reg := s.reg.(workers := workers)), id, ref, Setup(tm, a, rec, Restore))
    case WorkerMissing => End(s, id, ref)
    case WorkerConflict => GotoResume(s, id, ref, Claiming(tm, a, attempt, Drain(w)))
    case WorkerBusy => GotoResume(s, id, ref, Claiming(tm, a, attempt, Drain(w)))
  }

  function StepDrain(c: Config, s: Sys, id: TaskId, ref: ActorRef, tm: Template, a: Actor, attempt: nat, w: Worker,
                     alive: bool): Sys {
    match ReleaseWorker(c, s.reg, w, true, alive)
    case Refused => End(s, id, ref)
    case Released(reg) => GotoResume(s.(reg := reg), id, ref, Claiming(tm, a, attempt + 1, Acquire))
  }

  predicate CanRestore(s: Sys, w: Worker, snap: SnapshotRef) {
    w.sandbox.Some? && snap in s.disk.snapshots
  }

  // CheckpointBridge.restore: on success the sandbox holds the stored tree; on
  // failure the swap has been undone.
  function Restored(s: Sys, w: Worker, snap: SnapshotRef): Sys
    requires CanRestore(s, w, snap)
  {
    s.(disk := s.disk.(trees := s.disk.trees[w.sandbox.value := s.disk.snapshots[snap]]))
  }

  function StepRestore(s: Sys, id: TaskId, ref: ActorRef, tm: Template, a: Actor, w: Worker, io: IO): Sys {
    if a.snapshot.Some? then
      if io.Succeeds? && CanRestore(s, w, a.snapshot.value) then
        GotoResume(Restored(s, w, a.snapshot.value), id, ref, Setup(tm, a, w, Check))
      else End(s, id, ref)
    else if tm.templateId in s.catalog.golden then
      GotoResume(s, id, ref, Setup(tm, a, w, Golden(s.catalog.golden[tm.templateId])))
    else GotoResume(s, id, ref, Setup(tm, a, w, Capture))
  }

  function StepGolden(s: Sys, id: TaskId, ref: ActorRef, tm: Template, a: Actor, w: Worker, golden: SnapshotRef,
                      io: IO): Sys {
    if io.Succeeds? && CanRestore(s, w, golden) then
      GotoResume(Restored(s, w, golden), id, ref, Setup(tm, a, w, Check))
    else if !io.Absent? then End(s, id, ref)
    else GotoResume(s, id, ref, Setup(tm, a, w, if tm.templateId in s.catalog.golden then Check else Capture))
  }

  // Failing to capture the golden snapshot is logged and ignored.
  function StepCapture(s: Sys, id: TaskId, ref: ActorRef, tm: Template, a: Actor, w: Worker, io: IO,
                       unused: SnapshotRef): Option<Sys> {
    if !io.Succeeds? then Some(GotoResume(s, id, ref, Setup(tm, a, w, Check)))
    else if unused in s.disk.snapshots then None
    else
      var s1 := s.(disk := s.disk.(snapshots := s.disk.snapshots[unused := TreeOf(s.disk, w)]),
                   catalog := s.catalog.(golden := s.catalog.golden[tm.templateId := unused]));
      Some(GotoResume(s1, id, ref, Setup(tm, a, w, Check)))
  }

  function StepCheck(s: Sys, id: TaskId, ref: ActorRef, tm: Template, a: Actor, w: Worker): Sys {
    if ref !in s.actors then End(s, id, ref)
    else if s.actors[ref].status.RUNNING? && s.actors[ref].assignment.Some? then End(s, id, ref)
    else GotoResume(s, id, ref, Setup(tm, a, w, Finalize))
  }

  function StepFinalize(s: Sys, id: TaskId, ref: ActorRef, a: Actor, w: Worker, at: Time): Sys {
    var asg := AssignmentFor(ref, w, at);
    match ActorPut(s.actors, WithStatus(a, RUNNING).(assignment := Some(asg)), Some(a.version), at)
    case ActorStored(actors, _) => End(s.(actors := actors, bindings := s.bindings[ref := asg]), id, ref)
    case ActorConflict => GotoResume(s, id, ref, Lost(asg))
    case ActorMissing => End(s, id, ref)
  }

  function StepLost(s: Sys, id: TaskId, ref: ActorRef, asg: Assignment): Sys {
    if ref !in s.actors || !s.actors[ref].status.RUNNING? then End(s, id, ref)
    else End(s.(bindings := s.bindings[ref := asg]), id, ref)
  }

  function StepClaiming(c: Config, s: Sys, id: TaskId, ref: ActorRef, tm: Template, a: Actor, attempt: nat,
                        st: ClaimStage, ch: Choice): Option<Sys> {
    match st
    case Acquire => StepAcquire(c, s, id, ref, tm, a, attempt, ch.pick)
    case Wait => StepWait(c, s, id, ref, tm, a, attempt)
    case Register(sb) => StepRegister(c, s, id, ref, tm, a, attempt, sb, ch.worker, ch.kind)
    case Claim(w) => Some(StepClaim(s, id, ref, tm, a, attempt, w, ch.at))
    case Drain(w) => Some(StepDrain(c, s, id, ref, tm, a, attempt, w, ch.alive))
  }

  function StepSetup(s: Sys, id: TaskId, ref: ActorRef, tm: Template, a: Actor, w: Worker, st: SetupStage,
                     ch: Choice): Option<Sys> {
    match st
    case Restore => Some(StepRestore(s, id, ref, tm, a, w, ch.io))
    case Golden(g) => Some(StepGolden(s, id, ref, tm, a, w, g, ch.io))
    case Capture => StepCapture(s, id, ref, tm, a, w, ch.io, ch.snapshot)
    case Check => Some(StepCheck(s, id, ref, tm, a, w))
    case Finalize => Some(StepFinalize(s, id, ref, a, w, ch.at))
  }

  function StepResume(c: Config, s: Sys, id: TaskId, ref: ActorRef, st: ResumeStage, ch: Choice): Option<Sys> {
    match st
    case Read => Some(StepRead(s, id, ref))
    case Probe(tm) => Some(StepProbe(s, id, ref, tm))
    case Load(tm) => Some(StepLoad(s, id, ref, tm))
    case Flip(tm, a) => Some(StepFlip(s, id, ref, tm, a, ch.at))
    case Reread(tm) => Some(StepReread(s, id, ref, tm))
    case Claiming(tm, a, attempt, claim) => StepClaiming(c, s, id, ref, tm, a, attempt, claim, ch)
    case Setup(tm, a, w, setup) => StepSetup(s, id, ref, tm, a, w, setup, ch)
    case Lost(asg) => Some(StepLost(s, id, ref, asg))
  }

  // ---- suspend and pause ----

  function GotoStop(s: Sys, id: TaskId, ref: ActorRef, k: Kind, st: StopStage): Sys {
    Goto(s, id, Stop(ref, k, st))
  }

  function StopTransient(k: Kind): ActorStatus {
    if k.Suspend? then SUSPENDING else PAUSING
  }

  function StopFinal(k: Kind): ActorStatus {
    if k.Suspend? then SUSPENDED else PAUSED
  }

  function StepStopRead(s: Sys, id: TaskId, ref: ActorRef, k: Kind): Sys {
    if ref !in s.actors then End(s, id, ref)
    else
      var a := s.actors[ref];
      if !a.status.RUNNING? || (k.Suspend? && a.templateId !in s.catalog.templates) || a.assignment.None? then
        End(s, id, ref)
      else GotoStop(s, id, ref, k, StopFlip(a))
  }

  function StepStopFlip(s: Sys, id: TaskId, ref: ActorRef, k: Kind, a: Actor, at: Time): Sys {
    match ActorPut(s.actors, WithStatus(a, StopTransient(k)), Some(a.version), at)
    case ActorStored(actors, rec) => GotoStop(s.(actors := actors), id, ref, k, Holding(rec, Fetch))
    case _ => End(s, id, ref)
  }

  function StepFetch(s: Sys, id: TaskId, ref: ActorRef, k: Kind, a: Actor): Sys {
    if a.assignment.None? || a.assignment.value.workerId !in s.reg.workers then End(s, id, ref)
    else GotoStop(s, id, ref, k, Holding(a, Save(s.reg.workers[a.assignment.value.workerId])))
  }

  // CheckpointBridge.checkpoint: the durable store keeps the tree under a new
  // reference.
  function StepSave(s: Sys, id: TaskId, ref: ActorRef, k: Kind, a: Actor, w: Worker, io: IO,
                    unused: SnapshotRef): Option<Sys> {
    if !io.Succeeds? || w.sandbox.None? then Some(End(s, id, ref))
    else if unused in s.disk.snapshots then None
    else
      var tree := TreeOf(s.disk, w);
      Some(GotoStop(s.(disk := s.disk.(snapshots := s.disk.snapshots[unused := tree])), id, ref, k,
                    Holding(a, Unbind(w, unused, tree))))
  }

  function StepUnbind(s: Sys, id: TaskId, ref: ActorRef, k: Kind, a: Actor, w: Worker, saved: SnapshotRef,
                      tree: Tree): Sys {
    GotoStop(s.(bindings := s.bindings - {ref}), id, ref, k, Holding(a, Release(w, saved, tree)))
  }

  function StepRelease(c: Config, s: Sys, id: TaskId, ref: ActorRef, k: Kind, a: Actor, w: Worker, saved: SnapshotRef,
                       tree: Tree, alive: bool): Sys {
    match ReleaseWorker(c, s.reg, w, false, alive)
    case Refused => End(s, id, ref)
    case Released(reg) => GotoStop(s.(reg := reg), id, ref, k, StopCommit(a, saved, tree))
  }

  // A pause remembers its node unless the selector already names one.
  function StopSelector(k: Kind, a: Actor): Labels {
    if k.Pause? && a.assignment.Some? && a.assignment.value.node.Some? && a.assignment.value.node.value != ""
       && PAUSE_NODE !in a.selector
    then a.selector[PAUSE_NODE := a.assignment.value.node.value]
    else a.selector
  }

  // The record a finished suspend or pause writes.
  function Stopped(k: Kind, a: Actor, saved: SnapshotRef): Actor {
    a.(status := StopFinal(k), snapshot := Some(saved), assignment := None, selector := StopSelector(k, a))
  }

  function StepStopCommit(s: Sys, id: TaskId, ref: ActorRef, k: Kind, a: Actor, saved: SnapshotRef, tree: Tree,
                          at: Time): Sys {
    match ActorPut(s.actors, Stopped(k, a, saved), Some(a.version), at)
    case ActorStored(actors, _) =>
      End(s.(actors := actors, disk := s.disk.(saved := s.disk.saved[ref := tree])), id, ref)
    case _ => End(s, id, ref)
  }

  function StepHolding(c: Config, s: Sys, id: TaskId, ref: ActorRef, k: Kind, a: Actor, st: HoldStage,
                       ch: Choice): Option<Sys> {
    match st
    case Fetch => Some(StepFetch(s, id, ref, k, a))
    case Save(w) => StepSave(s, id, ref, k, a, w, ch.io, ch.snapshot)
    case Unbind(w, saved, tree) => Some(StepUnbind(s, id, ref, k, a, w, saved, tree))
    case Release(w, saved, tree) => Some(StepRelease(c, s, id, ref, k, a, w, saved, tree, ch.alive))
  }

  function StepStop(c: Config, s: Sys, id: TaskId, ref: ActorRef, k: Kind, st: StopStage, ch: Choice): Option<Sys> {
    match st
    case StopRead => Some(StepStopRead(s, id, ref, k))
    case StopFlip(a) => Some(StepStopFlip(s, id, ref, k, a, ch.at))
    case Holding(a, hold) => StepHolding(c, s, id, ref, k, a, hold, ch)
    case StopCommit(a, saved, tree) => Some(StepStopCommit(s, id, ref, k, a, saved, tree, ch.at))
  }

  // ---- mark_crashed ----

  function StepCrash(s: Sys, id: TaskId, ref: ActorRef, st: CrashStage, ch: Choice): Sys {
    match st
    case CrashRead =>
      if ref !in s.actors then End(s, id, ref) else Goto(s, id, Crash(ref, CrashUnbind(s.actors[ref])))
    case CrashUnbind(a) => Goto(s.(bindings := s.bindings - {ref}), id, Crash(ref, CrashCommit(a)))
    case CrashCommit(a) =>
      match ActorPut(s.actors, WithStatus(a, CRASHED).(assignment := None), Some(a.version), ch.at)
      case ActorStored(actors, _) => End(s.(actors := actors), id, ref)
      case _ => End(s, id, ref)
  }

  // ---- delete_actor ----

  function StepDelete(s: Sys, id: TaskId, ref: ActorRef, st: DeleteStage, ch: Choice): Sys {
    match st
    case DeleteRead =>
      if ref !in s.actors || s.actors[ref].IsActive() then End(s, id, ref)
      else Goto(s, id, Delete(ref, DeleteFlip(s.actors[ref])))
    case DeleteFlip(a) =>
      (match ActorPut(s.actors, WithStatus(a, DELETING), Some(a.version), ch.at)
       case ActorStored(actors, _) => Goto(s.(actors := actors), id, Delete(ref, DeleteErase))
       case ActorConflict => Goto(s, id, Delete(ref, DeleteReread))
       case ActorMissing => Goto(s, id, Delete(ref, DeleteErase)))
    case DeleteReread =>
      if ref !in s.actors || s.actors[ref].IsActive() then End(s, id, ref) else Goto(s, id, Delete(ref, DeleteErase))
    case DeleteErase => End(s.(bindings := s.bindings - {ref}, actors := s.actors - {ref}), id, ref)
  }

  function Step(c: Config, s: Sys, id: TaskId, ch: Choice): Option<Sys>
    requires id in s.tasks
  {
    match s.tasks[id]
    case Resume(ref, st) => StepResume(c, s, id, ref, st, ch)
    case Stop(ref, k, st) => StepStop(c, s, id, ref, k, st, ch)
    case Crash(ref, st) => Some(StepCrash(s, id, ref, st, ch))
    case Delete(ref, st) => Some(StepDelete(s, id, ref, st, ch))
    case Ended(_) => None
  }

  function NewActor(ref: ActorRef, templateId: string, selector: Labels, at: Time): Actor {
    Actor(ref.actorId, ref.namespace, templateId, SUSPENDED, 1, None, None, selector, at, at)
  }

  predicate InFlight(s: Sys, ref: ActorRef) {
    exists id :: id in s.tasks && !s.tasks[id].Ended? && s.tasks[id].ref == ref
  }

  // Singleflight: one resume of an actor leads at a time, the others join it.
  predicate HasLeader(s: Sys, ref: ActorRef) {
    exists id :: id in s.tasks && s.tasks[id].Resume? && s.tasks[id].ref == ref
  }

  // Clients never write into a sandbox that is being set up for an actor.
  predicate BeingSetUp(s: Sys, sb: P.Sandbox) {
    exists id :: id in s.tasks && s.tasks[id].Resume? && s.tasks[id].resume.Setup?
                 && s.tasks[id].resume.worker.sandbox == Some(sb)
  }

  // One event; None when it is not enabled.
  function Apply(c: Config, s: Sys, e: Event): Option<Sys> {
    match e
    case Create(ref, templateId, selector, at) =>
      // Hypothesis: no operation on an earlier actor of this name is in flight.
      if InFlight(s, ref) then None
      else if templateId !in s.catalog.templates then Some(s)
      else
        (match ActorPut(s.actors, NewActor(ref, templateId, selector, at), None, at)
         case ActorStored(actors, _) => Some(s.(actors := actors))
         case _ => Some(s))
    case RegisterTemplate(t) => Some(s.(catalog := s.catalog.(templates := s.catalog.templates[t.templateId := t])))
    case Begin(id, task) =>
      if id in s.tasks || !Starting(task) || (task.Resume? && HasLeader(s, task.ref)) then None
      else Some(Goto(s, id, task))
    case Advance(id, choice) =>
      if id in s.tasks then Step(c, s, id, choice) else None
    case PoolStep(event) =>
      if P.External(event) then None
      else
        (match P.Apply(c.pool, s.reg.pool, event)
         case None => None
         case Some(pool) => Some(s.(reg := s.reg.(pool := pool))))
    case SweepWarm(order) =>
      if IsSweepOrder(c, s.reg, order) then Some(s.(reg := WorkerPoolModel.SweepWarm(c, s.reg, order))) else None
    case Write(sb, tree) =>
      if BeingSetUp(s, sb) then None else Some(s.(disk := s.disk.(trees := s.disk.trees[sb := tree])))
  }

  // `golden` is the constructor's pre-seeded registry.
  function Init(golden: map<string, SnapshotRef>, now: Time): Sys {
    Sys(map[], map[], map[], Registry(map[], {}, map[], P.Init(now)), Disk(map[], map[], map[]), Catalog(map[], golden))
  }

  function Run(c: Config, s: Sys, es: seq<Event>): Option<Sys> {
    if es == [] then Some(s)
    else
      match Run(c, s, es[..|es| - 1])
      case None => None
      case Some(q) => Apply(c, q, es[|es| - 1])
  }
}
