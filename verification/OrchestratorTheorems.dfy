// What holds of every run of the orchestrator, whatever the interleaving.
module OrchestratorTheorems {
  import opened Wrappers
  import opened Collections
  import opened Model
  import opened Stores
  import opened WorkerPoolModel
  import opened OrchestratorModel
  import opened ActorSafety
  import opened WorkerSafety
  import opened SandboxSafety
  import opened RouterSafety
  import opened SnapshotSafety
  import opened IdleSafety
  import P = PoolModel
  import PS = PoolSafety

  // ---- the invariant and the runs ----

  ghost predicate Inv(c: Config, s: Sys) {
    && ActorInv(s.actors, s.tasks)
    && WorkerInv(c, s)
    && SandboxInv(c, s)
    && RouterInv(s)
    && SnapshotInv(s)
    && IdleInv(s)
  }

  // s is the outcome of some run from a fresh start.
  ghost predicate Reachable(c: Config, s: Sys) {
    exists golden, now, es :: Run(c, Init(golden, now), es) == Some(s)
  }

  lemma InitInv(c: Config, golden: map<string, SnapshotRef>, now: Time)
    requires P.ValidConfig(c.pool)
    ensures Inv(c, Init(golden, now))
  {
    PS.InitSafe(c.pool, now);
  }

  lemma StepInv(c: Config, s: Sys, e: Event)
    requires Inv(c, s) && Apply(c, s, e).Some?
    ensures Inv(c, Apply(c, s, e).value)
  {
    ActorStep(c, s, e);
    WorkerStep(c, s, e);
    SandboxStep(c, s, e);
    RouterStep(c, s, e);
    SnapshotStep(c, s, e);
    IdleStep(c, s, e);
  }

  lemma {:induction false} RunInv(c: Config, s: Sys, es: seq<Event>)
    requires Inv(c, s) && Run(c, s, es).Some?
    ensures Inv(c, Run(c, s, es).value)
  {
    if es == [] {
    } else {
      RunInv(c, s, es[..|es| - 1]);
      StepInv(c, Run(c, s, es[..|es| - 1]).value, es[|es| - 1]);
    }
  }

  lemma AlwaysInv(c: Config, s: Sys)
    requires P.ValidConfig(c.pool) && Reachable(c, s)
    ensures Inv(c, s)
  {
    var golden, now, es :| Run(c, Init(golden, now), es) == Some(s);
    InitInv(c, golden, now);
    RunInv(c, Init(golden, now), es);
  }

  // A run goes on.
  lemma ReachableStep(c: Config, s: Sys, e: Event, q: Sys)
    requires Reachable(c, s) && Apply(c, s, e) == Some(q)
    ensures Reachable(c, q)
  {
    var golden, now, es :| Run(c, Init(golden, now), es) == Some(s);
    var more := es + [e];
    assert more[..|more| - 1] == es;
    assert Run(c, Init(golden, now), more) == Some(q);
  }

  lemma {:induction false} ReachableRun(c: Config, s: Sys, es: seq<Event>)
    requires Reachable(c, s) && Run(c, s, es).Some?
    ensures Reachable(c, Run(c, s, es).value)
  {
    if es == [] {
    } else {
      ReachableRun(c, s, es[..|es| - 1]);
      ReachableStep(c, Run(c, s, es[..|es| - 1]).value, es[|es| - 1], Run(c, s, es).value);
    }
  }

  // ---- worker exclusivity ----

  predicate Running(s: Sys, ref: ActorRef) {
    ref in s.actors && s.actors[ref].status.RUNNING?
  }

  // The worker a running actor names.
  function WorkerOf(s: Sys, ref: ActorRef): WorkerId
    requires Running(s, ref) && s.actors[ref].assignment.Some?
  {
    s.actors[ref].assignment.value.workerId
  }

  // A running actor has a worker, whose record says so.
  predicate Placed(s: Sys, ref: ActorRef) {
    && Running(s, ref)
    && s.actors[ref].assignment.Some?
    && ClaimedFor(s.reg, ref, WorkerOf(s, ref))
    && Describes(s.actors[ref].assignment.value, s.reg.workers[WorkerOf(s, ref)])
    && s.reg.workers[WorkerOf(s, ref)].sandbox.Some?
  }

  function SandboxOf(s: Sys, ref: ActorRef): P.Sandbox
    requires Placed(s, ref)
  {
    s.reg.workers[WorkerOf(s, ref)].sandbox.value
  }

  lemma RunningPlaced(c: Config, s: Sys, ref: ActorRef)
    requires Inv(c, s) && Running(s, ref)
    ensures Placed(s, ref)
    ensures HeldBy(s.actors, s.tasks, ByActor(ref)) == Some(WorkerOf(s, ref))
    ensures OwnedBy(s.reg.workers, s.tasks, ByWorker(WorkerOf(s, ref))) == Some(SandboxOf(s, ref))
  {
    assert RecordWorkerOk(s.reg, ref, s.actors[ref]);
    assert WorkerOk(s.reg, WorkerOf(s, ref), s.reg.workers[WorkerOf(s, ref)]);
  }

  // Every running actor is on a worker claimed for it.
  lemma RunningIsPlaced(c: Config, s: Sys, ref: ActorRef)
    requires P.ValidConfig(c.pool) && Reachable(c, s) && Running(s, ref)
    ensures Placed(s, ref)
  {
    AlwaysInv(c, s);
    RunningPlaced(c, s, ref);
  }

  // No two running actors name the same worker, and each is named by its
  // worker's record.
  lemma WorkersAreExclusive(c: Config, s: Sys, r1: ActorRef, r2: ActorRef)
    requires P.ValidConfig(c.pool) && Reachable(c, s) && Running(s, r1) && Running(s, r2) && r1 != r2
    ensures Placed(s, r1) && Placed(s, r2)
    ensures WorkerOf(s, r1) != WorkerOf(s, r2)
    ensures SandboxOf(s, r1) != SandboxOf(s, r2)
  {
    AlwaysInv(c, s);
    RunningPlaced(c, s, r1);
    RunningPlaced(c, s, r2);
  }

  // Nor does a resume in progress set up, or a suspend give back, a worker
  // that an actor runs on.
  lemma TasksStayOffRunningWorkers(c: Config, s: Sys, id: TaskId, ref: ActorRef)
    requires P.ValidConfig(c.pool) && Reachable(c, s) && Running(s, ref) && id in s.tasks
    ensures Placed(s, ref) && HeldByTask(s.tasks[id]) != Some(WorkerOf(s, ref))
  {
    AlwaysInv(c, s);
    RunningPlaced(c, s, ref);
    assert HeldBy(s.actors, s.tasks, ByTask(id)) == HeldByTask(s.tasks[id]);
  }

  // Nobody has an unclaimed worker.
  lemma UnclaimedIsFree(c: Config, s: Sys, w: WorkerId)
    requires P.ValidConfig(c.pool) && Reachable(c, s) && w in s.reg.workers && s.reg.workers[w].assignment.None?
    ensures NoHolder(s.actors, s.tasks, w)
  {
    AlwaysInv(c, s);
    HoldersAreClaimed(c, s, w);
  }

  // The worker an operation holds is claimed for its actor, and held by nobody else.
  lemma HeldAlone(c: Config, s: Sys, id: TaskId, w: WorkerId)
    requires P.ValidConfig(c.pool) && Reachable(c, s) && id in s.tasks && HeldByTask(s.tasks[id]) == Some(w)
    ensures ClaimedFor(s.reg, s.tasks[id].ref, w) && s.reg.workers[w].sandbox.Some?
    ensures forall h :: HeldBy(s.actors, s.tasks, h) == Some(w) <==> h == ByTask(id)
  {
    AlwaysInv(c, s);
    assert TaskWorkerOk(s.reg, s.tasks[id]);
    assert HeldBy(s.actors, s.tasks, ByTask(id)) == Some(w);
    assert WorkerOk(s.reg, w, s.reg.workers[w]);
  }

  // A sweep retires unclaimed workers only.
  lemma SweptAreFree(c: Config, s: Sys, order: seq<WorkerId>)
    requires P.ValidConfig(c.pool) && Reachable(c, s) && IsSweepOrder(c, s.reg, order)
    ensures WorkerPoolModel.SweepWarm(c, s.reg, order).workers == s.reg.workers - (set w | w in order)
    ensures forall w :: w in order ==> NoHolder(s.actors, s.tasks, w)
  {
    AlwaysInv(c, s);
    SweepSafe(c, s, order);
    forall w | w in order
      ensures NoHolder(s.actors, s.tasks, w)
    {
      assert WarmOk(s.reg, w);
      HoldersAreClaimed(c, s, w);
    }
  }

  lemma UnusedIsNew(c: Config, s: Sys, id: WorkerId)
    requires P.ValidConfig(c.pool) && Reachable(c, s) && id !in s.reg.usedIds
    ensures id !in s.reg.workers
  {
    AlwaysInv(c, s);
    assert id in s.reg.workers ==> WorkerOk(s.reg, id, s.reg.workers[id]);
  }

  // A claimer's copy is the stored record, or older; after a lost claim, older.
  lemma ClaimIsCurrent(c: Config, s: Sys, id: TaskId)
    requires P.ValidConfig(c.pool) && Reachable(c, s) && id in s.tasks && s.tasks[id].Resume?
    requires s.tasks[id].resume.Claiming? && (s.tasks[id].resume.claim.Claim? || s.tasks[id].resume.claim.Drain?)
    ensures var w := s.tasks[id].resume.claim.worker;
      w.workerId in s.reg.workers ==>
        (s.tasks[id].resume.claim.Claim? && s.reg.workers[w.workerId] == w && w.IsIdle())
        || s.reg.workers[w.workerId].version > w.version
  {
    AlwaysInv(c, s);
    assert TaskWorkerOk(s.reg, s.tasks[id]);
  }

  // A claim starts from a free worker and makes the operation its only holder; it
  // is lost to a newer record or none, and then changes nothing.
  lemma ClaimOutcome(c: Config, s: Sys, id: TaskId, ref: ActorRef, tm: Template, a: Actor, n: nat, w: Worker, at: Time)
    requires P.ValidConfig(c.pool) && Reachable(c, s) && id in s.tasks
    requires s.tasks[id] == Resume(ref, Claiming(tm, a, n, Claim(w)))
    ensures var q := StepClaim(s, id, ref, tm, a, n, w, at);
      match WorkerClaim(s.reg.workers, w.workerId, AssignmentFor(ref, w, at), w.version)
      case WorkerStored(_, _) => NoHolder(s.actors, s.tasks, w.workerId) && HeldByTask(q.tasks[id]) == Some(w.workerId)
      case WorkerMissing => w.workerId !in s.reg.workers && q.reg == s.reg
      case _ => w.workerId in s.reg.workers && s.reg.workers[w.workerId].version > w.version && q.reg == s.reg
  {
    ClaimIsCurrent(c, s, id);
    if w.workerId in s.reg.workers && s.reg.workers[w.workerId].assignment.None? {
      UnclaimedIsFree(c, s, w.workerId);
    }
  }

  // Past its first read of the worker, a suspend's copy is the stored record.
  lemma FetchedIsStored(c: Config, s: Sys, id: TaskId)
    requires P.ValidConfig(c.pool) && Reachable(c, s) && id in s.tasks && s.tasks[id].Stop?
    requires s.tasks[id].stop.Holding? && !s.tasks[id].stop.hold.Fetch?
    ensures var w := s.tasks[id].stop.hold.worker;
      && w.workerId in s.reg.workers && s.reg.workers[w.workerId] == w && w.sandbox.Some?
      && HeldByTask(s.tasks[id]) == Some(w.workerId)
  {
    AlwaysInv(c, s);
    assert TaskWorkerOk(s.reg, s.tasks[id]);
  }

  // A sandbox about to be registered is held from the pool, and no worker has it.
  lemma UnregisteredIsNew(c: Config, s: Sys, id: TaskId, sb: P.Sandbox)
    requires P.ValidConfig(c.pool) && Reachable(c, s) && id in s.tasks && SandboxOfTask(s.tasks[id]) == Some(sb)
    ensures P.HeldBy(s.reg.pool, OWNER, sb)
    ensures forall w :: w in s.reg.workers ==> s.reg.workers[w].sandbox != Some(sb)
  {
    AlwaysInv(c, s);
    assert OwnedBy(s.reg.workers, s.tasks, ByRegistrar(id)) == Some(sb);
    forall w | w in s.reg.workers
      ensures s.reg.workers[w].sandbox != Some(sb)
    {
      assert OwnedBy(s.reg.workers, s.tasks, ByWorker(w)) == s.reg.workers[w].sandbox;
    }
  }

  // ---- composed capacity ----

  lemma RegisteredSandboxes(c: Config, s: Sys, w1: WorkerId, w2: WorkerId)
    requires P.ValidConfig(c.pool) && Reachable(c, s) && w1 in s.reg.workers && w2 in s.reg.workers
    ensures s.reg.workers[w1].sandbox.Some? && s.reg.workers[w1].sandbox.value in s.reg.pool.core.inUse
    ensures s.reg.workers[w1].sandbox.value !in s.reg.pool.closed
    ensures w1 != w2 ==> s.reg.workers[w1].sandbox != s.reg.workers[w2].sandbox
  {
    AlwaysInv(c, s);
    assert WorkerOk(s.reg, w1, s.reg.workers[w1]);
    var sb := s.reg.workers[w1].sandbox.value;
    assert OwnedBy(s.reg.workers, s.tasks, ByWorker(w1)) == Some(sb);
    assert OwnedBy(s.reg.workers, s.tasks, ByWorker(w2)) == s.reg.workers[w2].sandbox;
    assert PS.At(s.reg.pool, sb, PS.Held);
    assert !PS.At(s.reg.pool, sb, PS.Closed);
  }

  function RunningActors(s: Sys): set<ActorRef> {
    set ref | ref in s.actors && s.actors[ref].status.RUNNING?
  }

  lemma RunningSandbox(c: Config, s: Sys, ref: ActorRef)
    requires Inv(c, s) && Running(s, ref)
    ensures Placed(s, ref) && SandboxOf(s, ref) in s.reg.pool.core.inUse
  {
    RunningPlaced(c, s, ref);
  }

  lemma SandboxesDiffer(c: Config, s: Sys, r1: ActorRef, r2: ActorRef)
    requires Inv(c, s) && Placed(s, r1) && Placed(s, r2) && r1 != r2
    ensures SandboxOf(s, r1) != SandboxOf(s, r2)
  {
    RunningPlaced(c, s, r1);
    RunningPlaced(c, s, r2);
  }

  // Never more running actors than sandboxes.
  lemma RunningBounded(c: Config, s: Sys)
    requires P.ValidConfig(c.pool) && Reachable(c, s)
    ensures |RunningActors(s)| <= c.pool.maxSize
  {
    AlwaysInv(c, s);
    forall ref | ref in RunningActors(s)
      ensures Placed(s, ref) && SandboxOf(s, ref) in s.reg.pool.core.inUse
    {
      RunningSandbox(c, s, ref);
    }
    var f := map ref | ref in RunningActors(s) :: SandboxOf(s, ref);
    forall r1, r2 | r1 in RunningActors(s) && r2 in RunningActors(s) && f[r1] == f[r2]
      ensures r1 == r2
    {
      if r1 != r2 {
        SandboxesDiffer(c, s, r1, r2);
      }
    }
    InjectionCardinality(RunningActors(s), s.reg.pool.core.inUse, f);
  }

  // The warm registry is bounded and lists idle workers; an idle worker outside
  // it is one that a resume is about to claim.
  lemma WarmIsIdle(c: Config, s: Sys)
    requires P.ValidConfig(c.pool) && Reachable(c, s)
    ensures |s.reg.warm| <= c.maxWarmIdle
    ensures forall id :: id in s.reg.warm ==> id in s.reg.workers && s.reg.workers[id].IsIdle()
    ensures forall id :: id in s.reg.workers && s.reg.workers[id].IsIdle() ==>
      id in s.reg.warm || Claimable(s.tasks, s.reg.workers[id])
  {
    AlwaysInv(c, s);
    forall id | id in s.reg.warm
      ensures id in s.reg.workers && s.reg.workers[id].IsIdle()
    {
      assert WarmOk(s.reg, id) && WorkerOk(s.reg, id, s.reg.workers[id]);
    }
    forall id | id in s.reg.workers && s.reg.workers[id].IsIdle()
      ensures id in s.reg.warm || Claimable(s.tasks, s.reg.workers[id])
    {
      assert Loose(s.reg, id) ==> Claimable(s.tasks, s.reg.workers[id]);
    }
  }

  // ---- lifecycle ----

  // Every write of an actor record follows an edge of the protocol and bumps
  // the version by one; records carry an assignment as their status says.
  lemma LifecycleEdges(c: Config, s: Sys, e: Event)
    requires P.ValidConfig(c.pool) && Reachable(c, s) && Apply(c, s, e).Some?
    ensures EdgesOnly(s.actors, Apply(c, s, e).value.actors)
    ensures forall ref :: ref in s.actors ==> Shape(s.actors[ref]) && s.actors[ref].Ref() == ref
  {
    AlwaysInv(c, s);
    ActorStep(c, s, e);
    forall ref | ref in s.actors
      ensures Shape(s.actors[ref]) && s.actors[ref].Ref() == ref
    {
      assert RecordOk(ref, s.actors[ref]);
    }
  }

  lemma RecordsFit(c: Config, s: Sys, ref: ActorRef)
    requires P.ValidConfig(c.pool) && Reachable(c, s) && ref in s.actors
    ensures Shape(s.actors[ref]) && s.actors[ref].Ref() == ref
  {
    AlwaysInv(c, s);
    assert RecordOk(ref, s.actors[ref]);
  }

  // ---- worker records ----

  // One event claims, releases, adds or removes; a record changes only with
  // its version going up by one, and a removed or new id was never used twice.
  predicate WorkerEdge(before: Registry, after: Registry, id: WorkerId) {
    if id !in after.workers then true
    else if id in before.workers then
      var b, a := before.workers[id], after.workers[id];
      a == b || a == b.(assignment := a.assignment, version := b.version + 1)
    else id !in before.usedIds && after.workers[id].version == 1 && after.workers[id].IsIdle()
  }

  lemma EffectEdge(r: Registry, e: RegEffect, id: WorkerId)
    requires TableOk(r) && RegLegal(r, e)
    ensures WorkerEdge(r, RegAfter(r, e), id) && r.usedIds <= RegAfter(r, e).usedIds
  {
  }

  lemma AdvanceWorkerEdges(c: Config, s: Sys, id: TaskId, ch: Choice, w: WorkerId)
    requires Inv(c, s) && id in s.tasks && Step(c, s, id, ch).Some?
    ensures WorkerEdge(s.reg, Step(c, s, id, ch).value.reg, w)
    ensures s.reg.usedIds <= Step(c, s, id, ch).value.reg.usedIds
  {
    var e := StepAdvances(c, s, id, ch);
    EffectEdge(s.reg, e, w);
  }

  lemma SweepWorkerEdges(c: Config, s: Sys, order: seq<WorkerId>, w: WorkerId)
    requires Inv(c, s) && IsSweepOrder(c, s.reg, order)
    ensures WorkerEdge(s.reg, WorkerPoolModel.SweepWarm(c, s.reg, order), w)
    ensures WorkerPoolModel.SweepWarm(c, s.reg, order).usedIds == s.reg.usedIds
  {
    RetireAllTable(c, s.reg.(warm := s.reg.warm - (set id | id in order)), order);
  }

  lemma EventWorkerEdges(c: Config, s: Sys, e: Event)
    requires Apply(c, s, e).Some? && !e.Advance? && !e.SweepWarm?
    ensures Apply(c, s, e).value.reg.workers == s.reg.workers && Apply(c, s, e).value.reg.usedIds == s.reg.usedIds
  {
  }

  lemma WorkerVersionsAdvance(c: Config, s: Sys, e: Event, w: WorkerId)
    requires P.ValidConfig(c.pool) && Reachable(c, s) && Apply(c, s, e).Some?
    ensures WorkerEdge(s.reg, Apply(c, s, e).value.reg, w)
    ensures s.reg.usedIds <= Apply(c, s, e).value.reg.usedIds
  {
    AlwaysInv(c, s);
    match e
    case Advance(id, choice) => AdvanceWorkerEdges(c, s, id, choice, w);
    case SweepWarm(order) => SweepWorkerEdges(c, s, order, w);
    case _ => EventWorkerEdges(c, s, e);
  }

  // A claimer that lost: its drain changes nothing in the worker pool.
  lemma LosersAreHarmless(c: Config, s: Sys, id: TaskId, ch: Choice)
    requires P.ValidConfig(c.pool) && Reachable(c, s) && id in s.tasks
    requires s.tasks[id].Resume? && s.tasks[id].resume.Claiming? && s.tasks[id].resume.claim.Drain?
    ensures Step(c, s, id, ch).Some? && Step(c, s, id, ch).value.reg == s.reg
  {
    AlwaysInv(c, s);
    assert TaskWorkerOk(s.reg, s.tasks[id]);
    LoserReleasesNothing(c, s.reg, s.tasks[id].resume.claim.worker, ch.alive);
  }

  // ---- branches the protocol rules out ----

  // No resume finds its actor RUNNING once it leads, or RESUMING after losing
  // the flip; so the binding that follows a lost final write never happens.
  lemma DeadBranches(c: Config, s: Sys, id: TaskId)
    requires P.ValidConfig(c.pool) && Reachable(c, s) && id in s.tasks && s.tasks[id].Resume?
    ensures s.tasks[id].resume.Probe? ==> !Running(s, s.tasks[id].ref)
    ensures s.tasks[id].resume.Reread? && s.tasks[id].ref in s.actors ==> !s.actors[s.tasks[id].ref].status.RESUMING?
    ensures s.tasks[id].resume.Lost? ==> !Running(s, s.tasks[id].ref)
    ensures s.tasks[id].resume.Setup? ==> !Running(s, s.tasks[id].ref)
  {
    AlwaysInv(c, s);
    assert TaskActorOk(s.actors, s.tasks[id]);
  }

  // While its actor is not crashed or deleted, a leading resume works on the
  // very record that is stored.
  lemma LeaderIsCurrent(c: Config, s: Sys, id: TaskId)
    requires P.ValidConfig(c.pool) && Reachable(c, s) && id in s.tasks && s.tasks[id].Resume?
    requires s.tasks[id].resume.Flip? || s.tasks[id].resume.Claiming? || s.tasks[id].resume.Setup?
    ensures var ref, a := s.tasks[id].ref, s.tasks[id].resume.actor;
      ref in s.actors && !Overtaking(s.actors[ref].status) ==> s.actors[ref] == a
  {
    AlwaysInv(c, s);
    assert TaskActorOk(s.actors, s.tasks[id]);
  }

  // The copy of its actor's record that an operation writes through.
  function CopyOf(t: Task): Option<Actor> {
    match t
    case Resume(_, st) => if st.Flip? || st.Claiming? || st.Setup? then Some(st.actor) else None
    case Stop(_, _, st) => if st.StopRead? then None else Some(st.actor)
    case Crash(_, st) => if st.CrashRead? then None else Some(st.actor)
    case Delete(_, st) => if st.DeleteFlip? then Some(st.actor) else None
    case Ended(_) => None
  }

  predicate Fits(t: Task, st: ActorStatus) {
    match t
    case Resume(_, stage) => if stage.Flip? then Detached(st) else st.RESUMING?
    case Stop(_, k, stage) => if stage.StopFlip? then st.RUNNING? else st == StopTransient(k)
    case Delete(_, _) => !st.RUNNING? && !st.RESUMING?
    case _ => true
  }

  // It is the stored record, or an older one; its status is as the operation left it.
  lemma CopiesAreCurrent(c: Config, s: Sys, id: TaskId)
    requires P.ValidConfig(c.pool) && Reachable(c, s) && id in s.tasks && CopyOf(s.tasks[id]).Some?
    ensures var ref, a := s.tasks[id].ref, CopyOf(s.tasks[id]).value;
      && a.Ref() == ref && Shape(a) && Fits(s.tasks[id], a.status)
      && (ref in s.actors ==> s.actors[ref] == a || s.actors[ref].version > a.version)
  {
    AlwaysInv(c, s);
    assert TaskActorOk(s.actors, s.tasks[id]);
  }

  // ---- routing ----

  // Whatever is routed is routed where the actor's record says it runs.
  lemma RouterIsSound(c: Config, s: Sys, ref: ActorRef)
    requires P.ValidConfig(c.pool) && Reachable(c, s) && ref in s.bindings
    ensures ref in s.actors && s.actors[ref].assignment == Some(s.bindings[ref])
    ensures !Detached(s.actors[ref].status)
  {
    AlwaysInv(c, s);
    assert BindingOk(s.actors, s.bindings, ref);
    assert RecordOk(ref, s.actors[ref]);
  }

  // A crash about to be written has already unrouted the record it copied.
  lemma CrashIsUnrouted(c: Config, s: Sys, id: TaskId)
    requires P.ValidConfig(c.pool) && Reachable(c, s) && id in s.tasks
    requires s.tasks[id].Crash? && s.tasks[id].crash.CrashCommit? && s.tasks[id].ref in s.bindings
    ensures s.tasks[id].ref in s.actors && s.actors[s.tasks[id].ref] != s.tasks[id].crash.actor
  {
    AlwaysInv(c, s);
    assert TaskRouteOk(s.actors, s.bindings, s.tasks[id]) && BindingOk(s.actors, s.bindings, s.tasks[id].ref);
  }

  // ---- the state round trip ----

  // The actor's sandbox holds its snapshot, which is the tree of its last
  // committed suspend or pause.
  predicate Restored(s: Sys, ref: ActorRef) {
    && Placed(s, ref) && s.actors[ref].snapshot.Some?
    && s.actors[ref].snapshot.value in s.disk.snapshots && ref in s.disk.saved && SandboxOf(s, ref) in s.disk.trees
    && s.disk.trees[SandboxOf(s, ref)] == s.disk.snapshots[s.actors[ref].snapshot.value] == s.disk.saved[ref]
  }

  // Only an actor without a snapshot boots from its template's.
  lemma BootsClean(c: Config, s: Sys, id: TaskId)
    requires P.ValidConfig(c.pool) && Reachable(c, s) && id in s.tasks && s.tasks[id].Resume?
    requires s.tasks[id].resume.Setup? && (s.tasks[id].resume.setup.Golden? || s.tasks[id].resume.setup.Capture?)
    ensures s.tasks[id].resume.actor.snapshot.None?
  {
    AlwaysInv(c, s);
    assert TaskSaved(s.disk, s.tasks[id]);
  }

  // The worker's sandbox holds the stored snapshot.
  predicate Holds(d: Disk, w: Worker, snap: SnapshotRef) {
    && snap in d.snapshots && w.sandbox.Some? && w.sandbox.value in d.trees
    && d.trees[w.sandbox.value] == d.snapshots[snap]
  }

  lemma FinalizeRestored(c: Config, s: Sys, id: TaskId, ref: ActorRef, tm: Template, a: Actor, w: Worker, at: Time)
    requires Inv(c, s) && id in s.tasks && s.tasks[id] == Resume(ref, Setup(tm, a, w, Finalize))
    ensures var q := StepFinalize(s, id, ref, a, w, at);
      Running(q, ref) && q.actors[ref].snapshot.Some? ==> Restored(q, ref)
  {
    assert TaskWorkerOk(s.reg, s.tasks[id]) && TaskSaved(s.disk, s.tasks[id]) && TaskActorOk(s.actors, s.tasks[id]);
    assert ref in s.actors ==> RecordSaved(s.disk, ref, s.actors[ref]);
  }

  lemma OnlyFinalizeWrites(c: Config, s: Sys, id: TaskId, ref: ActorRef, st: ResumeStage, ch: Choice)
    requires id in s.tasks && s.tasks[id] == Resume(ref, st) && Step(c, s, id, ch).Some?
    requires !(st.Setup? && st.setup.Finalize?)
    ensures forall r :: Running(Step(c, s, id, ch).value, r) ==> Running(s, r)
  {
    match st
    case Flip(tm, a) =>
    case Claiming(tm, a, attempt, claim) =>
    case Setup(tm, a, w, setup) =>
    case _ =>
  }

  lemma OnlyAdvanceRuns(c: Config, s: Sys, e: Event, ref: ActorRef)
    requires Apply(c, s, e).Some? && !e.Advance?
    ensures Running(Apply(c, s, e).value, ref) ==> Running(s, ref)
  {
  }

  // The event is the final step of a resume of the actor.
  predicate Finalizes(s: Sys, e: Event, ref: ActorRef) {
    && e.Advance? && e.id in s.tasks && s.tasks[e.id].ref == ref && s.tasks[e.id].Resume?
    && s.tasks[e.id].resume.Setup? && s.tasks[e.id].resume.setup.Finalize?
  }

  lemma AdvanceRuns(c: Config, s: Sys, id: TaskId, ch: Choice, ref: ActorRef)
    requires Inv(c, s) && id in s.tasks && Step(c, s, id, ch).Some?
    ensures Running(Step(c, s, id, ch).value, ref) ==> Running(s, ref) || Finalizes(s, Advance(id, ch), ref)
  {
    var effect := StepLegal(c, s, id, ch);
    if s.tasks[id].Resume? {
      var st := s.tasks[id].resume;
      if !(st.Setup? && st.setup.Finalize?) {
        OnlyFinalizeWrites(c, s, id, s.tasks[id].ref, st, ch);
      }
    }
  }

  // Only that makes an actor RUNNING.
  lemma OnlyFinalizeRuns(c: Config, s: Sys, e: Event, ref: ActorRef)
    requires Inv(c, s) && Apply(c, s, e).Some?
    ensures Running(Apply(c, s, e).value, ref) ==> Running(s, ref) || Finalizes(s, e, ref)
  {
    if e.Advance? {
      AdvanceRuns(c, s, e.id, e.choice, ref);
    } else {
      OnlyAdvanceRuns(c, s, e, ref);
    }
  }

  lemma FinalizeApplies(c: Config, s: Sys, e: Event, ref: ActorRef)
    requires Finalizes(s, e, ref)
    ensures var st := s.tasks[e.id].resume;
      Apply(c, s, e) == Some(StepFinalize(s, e.id, ref, st.actor, st.worker, e.choice.at))
  {
  }

  lemma StepRestores(c: Config, s: Sys, e: Event, ref: ActorRef)
    requires Inv(c, s) && Apply(c, s, e).Some? && !Running(s, ref)
    ensures var q := Apply(c, s, e).value; Running(q, ref) && q.actors[ref].snapshot.Some? ==> Restored(q, ref)
  {
    OnlyFinalizeRuns(c, s, e, ref);
    if Finalizes(s, e, ref) {
      FinalizeApplies(c, s, e, ref);
      var st := s.tasks[e.id].resume;
      FinalizeRestored(c, s, e.id, ref, st.template, st.actor, st.worker, e.choice.at);
    }
  }

  // Whenever an actor that has a snapshot becomes RUNNING, its sandbox holds
  // the tree of its last committed suspend or pause.
  lemma StateRoundTrip(c: Config, s: Sys, e: Event, ref: ActorRef)
    requires P.ValidConfig(c.pool) && Reachable(c, s) && Apply(c, s, e).Some? && !Running(s, ref)
    ensures var q := Apply(c, s, e).value; Running(q, ref) && q.actors[ref].snapshot.Some? ==> Restored(q, ref)
  {
    AlwaysInv(c, s);
    StepRestores(c, s, e, ref);
  }

  // Whatever snapshot a record names is stored, and is the tree of the actor's
  // last committed suspend or pause.
  lemma LastSaveIsStored(c: Config, s: Sys, ref: ActorRef)
    requires P.ValidConfig(c.pool) && Reachable(c, s) && ref in s.actors && s.actors[ref].snapshot.Some?
    ensures s.actors[ref].snapshot.value in s.disk.snapshots && ref in s.disk.saved
    ensures s.disk.saved[ref] == s.disk.snapshots[s.actors[ref].snapshot.value]
  {
    AlwaysInv(c, s);
    assert RecordSaved(s.disk, ref, s.actors[ref]);
  }

  lemma AdvanceKeepsSnapshots(c: Config, s: Sys, id: TaskId, ch: Choice, snap: SnapshotRef)
    requires Inv(c, s) && id in s.tasks && Step(c, s, id, ch).Some? && snap in s.disk.snapshots
    ensures var q := Step(c, s, id, ch).value;
      snap in q.disk.snapshots && q.disk.snapshots[snap] == s.disk.snapshots[snap]
  {
    var effect := StepSaves(c, s, id, ch);
  }

  lemma EventKeepsSnapshots(c: Config, s: Sys, e: Event)
    requires Apply(c, s, e).Some? && !e.Advance?
    ensures Apply(c, s, e).value.disk.snapshots == s.disk.snapshots
  {
  }

  // A snapshot once taken never changes.
  lemma SnapshotsAreKept(c: Config, s: Sys, e: Event, snap: SnapshotRef)
    requires P.ValidConfig(c.pool) && Reachable(c, s) && Apply(c, s, e).Some? && snap in s.disk.snapshots
    ensures var q := Apply(c, s, e).value; snap in q.disk.snapshots && q.disk.snapshots[snap] == s.disk.snapshots[snap]
  {
    AlwaysInv(c, s);
    if e.Advance? {
      AdvanceKeepsSnapshots(c, s, e.id, e.choice, snap);
    } else {
      EventKeepsSnapshots(c, s, e);
    }
  }

  // A suspend or pause saves what its actor's sandbox holds at that moment.
  lemma SavesWhatTheSandboxHolds(c: Config, s: Sys, id: TaskId, ch: Choice)
    requires P.ValidConfig(c.pool) && Reachable(c, s) && id in s.tasks && Step(c, s, id, ch).Some?
    requires s.tasks[id].Stop? && s.tasks[id].stop.Holding? && s.tasks[id].stop.hold.Save?
    requires !Step(c, s, id, ch).value.tasks[id].Ended?
    ensures var w := s.tasks[id].stop.hold.worker; var q := Step(c, s, id, ch).value;
      && w.workerId in s.reg.workers && s.reg.workers[w.workerId] == w
      && ch.snapshot !in s.disk.snapshots && ch.snapshot in q.disk.snapshots
      && q.disk.snapshots[ch.snapshot] == TreeOf(s.disk, s.reg.workers[w.workerId])
      && q.tasks[id].Stop? && q.tasks[id].stop.Holding? && q.tasks[id].stop.hold.Unbind?
      && q.tasks[id].stop.hold.saved == ch.snapshot
  {
    AlwaysInv(c, s);
    assert TaskWorkerOk(s.reg, s.tasks[id]);
  }

  // ---- isolation ----

  lemma SetUpElsewhere(c: Config, s: Sys, id: TaskId, ref: ActorRef, sb: P.Sandbox)
    requires Inv(c, s) && Running(s, ref) && Placed(s, ref) && id in s.tasks && SettingUp(s.tasks[id], sb)
    ensures sb != SandboxOf(s, ref)
  {
    RunningPlaced(c, s, ref);
    var w := s.tasks[id].resume.worker;
    assert TaskWorkerOk(s.reg, s.tasks[id]);
    assert OwnedBy(s.reg.workers, s.tasks, ByWorker(w.workerId)) == Some(sb);
    assert HeldBy(s.actors, s.tasks, ByTask(id)) == Some(w.workerId);
  }

  predicate SameFiles(before: Disk, after: Disk, sb: P.Sandbox) {
    (sb in after.trees <==> sb in before.trees) && (sb in before.trees ==> after.trees[sb] == before.trees[sb])
  }

  lemma AdvanceIsolates(c: Config, s: Sys, id: TaskId, ch: Choice, ref: ActorRef)
    requires Inv(c, s) && Placed(s, ref) && id in s.tasks && Step(c, s, id, ch).Some?
    ensures SameFiles(s.disk, Step(c, s, id, ch).value.disk, SandboxOf(s, ref))
  {
    var e := StepSaves(c, s, id, ch);
    if e.Overwrites? {
      SetUpElsewhere(c, s, id, ref, e.sb);
    }
  }

  lemma EventIsolates(c: Config, s: Sys, e: Event, sb: P.Sandbox)
    requires Apply(c, s, e).Some? && !e.Advance? && !(e.Write? && e.sandbox == sb)
    ensures SameFiles(s.disk, Apply(c, s, e).value.disk, sb)
  {
  }

  lemma StepIsolates(c: Config, s: Sys, e: Event, ref: ActorRef)
    requires Inv(c, s) && Placed(s, ref) && Apply(c, s, e).Some? && !(e.Write? && e.sandbox == SandboxOf(s, ref))
    ensures SameFiles(s.disk, Apply(c, s, e).value.disk, SandboxOf(s, ref))
  {
    if e.Advance? {
      AdvanceIsolates(c, s, e.id, e.choice, ref);
    } else {
      EventIsolates(c, s, e, SandboxOf(s, ref));
    }
  }

  // The files a running actor sees change by its clients' writes only: no
  // restore for another actor, crash, sweep or reuse ever reaches them.
  lemma RunningFilesAreIsolated(c: Config, s: Sys, e: Event, ref: ActorRef)
    requires P.ValidConfig(c.pool) && Reachable(c, s) && Apply(c, s, e).Some? && Running(s, ref)
    ensures Placed(s, ref)
    ensures !(e.Write? && e.sandbox == SandboxOf(s, ref)) ==>
      SameFiles(s.disk, Apply(c, s, e).value.disk, SandboxOf(s, ref))
  {
    AlwaysInv(c, s);
    RunningPlaced(c, s, ref);
    if !(e.Write? && e.sandbox == SandboxOf(s, ref)) {
      StepIsolates(c, s, e, ref);
    }
  }
}
