// The Orchestrator class (orchestrator.py): the code of its coroutines between
// two awaits, one method each, over the stores, the worker pool and the router
// that it updates in place.  A method returns what the coroutine does next.
// Each takes one event of the transition system, from a reachable state to a
// reachable state, so every theorem about runs holds of the object.
module Orchestrators {
  import opened Wrappers
  import opened Model
  import opened Stores
  import opened InMemoryStores
  import opened WorkerPools
  import opened O = OrchestratorModel
  import opened T = OrchestratorTheorems
  import opened Orphans
  import opened Routing
  import A = ActorSafety
  import H = WorkerSafety
  import W = WorkerPoolModel
  import P = PoolModel

  lemma WaitEnds(c: W.Config, s: Sys, id: TaskId, ref: ActorRef, tm: Template, a: Actor, attempt: nat,
                 got: Option<P.Sandbox>, ch: Choice)
    requires id in s.tasks && s.tasks[id] == Resume(ref, Claiming(tm, a, attempt, Wait)) && id in s.reg.pool.ops
    requires s.reg.pool.ops[id] == if got.Some? then P.AcqDone(got.value) else P.AcqRaised
    ensures Step(c, s, id, ch) == Some(
      if got.Some? then
        GotoResume(s.(reg := s.reg.(pool := P.HandOut(s.reg.pool, id, got.value, W.OWNER))), id, ref,
                   Claiming(tm, a, attempt, ClaimStage.Register(got.value)))
      else End(s.(reg := s.reg.(pool := P.Finish(s.reg.pool, id))), id, ref))
  {
  }

  class Orchestrator {
    const actors: InMemoryActorStore
    const workers: WorkerPool
    var bindings: map<ActorRef, Assignment>
    var templates: map<string, Template>
    var golden: map<string, SnapshotRef>
    var disk: Disk
    // Where each coroutine stands.
    var tasks: map<TaskId, Task>

    constructor (a: InMemoryActorStore, w: WorkerPool, g: map<string, SnapshotRef>)
      requires a.Valid() && w.Valid() && a.actors == map[] && P.ValidConfig(w.config.pool)
      requires w.Reg() == W.Registry(map[], {}, map[], P.Init(w.sandboxes.pool.now))
      ensures Valid() && actors == a && workers == w && Sys() == Init(g, w.sandboxes.pool.now)
    {
      actors, workers, bindings, templates, golden := a, w, map[], map[], g;
      disk, tasks := Disk(map[], map[], map[]), map[];
      new;
      assert Run(w.config, Init(g, w.sandboxes.pool.now), []) == Some(Sys());
    }

    ghost function Sys(): Sys
      reads this, actors, workers, workers.store, workers.sandboxes
    {
      O.Sys(actors.actors, tasks, bindings, workers.Reg(), disk, Catalog(templates, golden))
    }

    ghost predicate Linked()
      reads this, actors, workers, workers.store, workers.sandboxes
    {
      actors.Valid() && workers.Valid() && P.ValidConfig(workers.config.pool)
    }

    // Some run leads here.
    ghost predicate Valid()
      reads this, actors, workers, workers.store, workers.sandboxes
    {
      Linked() && Reachable(workers.config, Sys())
    }

    // Coroutine id is at this point.
    ghost predicate At(id: TaskId, t: Task)
      reads this, actors, workers, workers.store, workers.sandboxes
    {
      Valid() && id in tasks && tasks[id] == t
    }

    // It has gone on from `before` to here.
    ghost predicate Went(before: Sys, id: TaskId, ch: Choice, next: Task)
      reads this, actors, workers, workers.store, workers.sandboxes
    {
      Apply(workers.config, before, Advance(id, ch)) == Some(Sys()) && At(id, next)
    }

    lemma Goes(before: Sys, id: TaskId, ch: Choice, next: Task)
      requires Linked() && Reachable(workers.config, before) && id in before.tasks
      requires Step(workers.config, before, id, ch) == Some(Sys()) && id in tasks && tasks[id] == next
      ensures Went(before, id, ch, next)
    {
      ReachableStep(workers.config, before, Advance(id, ch), Sys());
    }

    // An event that is no section of a coroutine of this class.
    twostate lemma Elsewhere(e: Event)
      requires old(Valid()) && Linked() && Apply(workers.config, old(Sys()), e) == Some(Sys())
      ensures Valid()
    {
      ReachableStep(workers.config, old(Sys()), e, Sys());
    }

    // A tick of the worker pool's sweeper: it retires no worker that anyone has.
    method SweepWorkers(now: Time) returns (expired: seq<WorkerId>)
      requires Valid() && now == workers.sandboxes.pool.now
      modifies workers, workers.store, workers.sandboxes
      ensures Valid() && Apply(workers.config, old(Sys()), O.SweepWarm(expired)) == Some(Sys())
      ensures workers.store.workers == old(workers.store.workers) - (set w | w in expired)
      ensures forall w :: w in expired ==> old(H.NoHolder(actors.actors, tasks, w))
    {
      ghost var c, s := workers.config, Sys();
      expired := workers.SweepOnce(now);
      Elsewhere(O.SweepWarm(expired));
      SweptAreFree(c, s, expired);
    }

    // A tick of the sandbox pool's sweeper: no worker loses its sandbox.
    method SweepSandboxes(now: Time, ghost id: P.OpId) returns (evicted: seq<P.Sandbox>)
      requires Valid() && now == workers.sandboxes.pool.now && id !in workers.sandboxes.pool.ops
      modifies workers.sandboxes
      ensures Valid() && Apply(workers.config, old(Sys()), PoolStep(P.StartSweep(id))) == Some(Sys())
      ensures forall w :: w in workers.store.workers ==>
        workers.store.workers[w].sandbox.Some? && workers.store.workers[w].sandbox.value in workers.sandboxes.inUse
    {
      ghost var c, s := workers.config, Sys();
      evicted := workers.sandboxes.SweepOnce(now, id);
      Elsewhere(PoolStep(P.StartSweep(id)));
      forall w | w in workers.store.workers
        ensures Sys().reg.workers[w].sandbox.Some? && Sys().reg.workers[w].sandbox.value in Sys().reg.pool.core.inUse
      {
        RegisteredSandboxes(c, Sys(), w, w);
      }
    }

    // A client writes into a sandbox that nobody is setting up.
    method WriteFiles(sb: P.Sandbox, tree: Tree)
      requires Valid() && !BeingSetUp(Sys(), sb)
      modifies this`disk
      ensures Valid() && Apply(workers.config, old(Sys()), Write(sb, tree)) == Some(Sys())
    {
      disk := disk.(trees := disk.trees[sb := tree]);
      Elsewhere(Write(sb, tree));
    }

    // ---- create_actor, register_template ----

    // False is the error for an unknown template or an existing actor.
    method CreateActor(ref: ActorRef, templateId: string, selector: Labels, at: Time) returns (ok: bool)
      requires Valid() && !InFlight(Sys(), ref)
      modifies actors
      ensures Valid() && Apply(workers.config, old(Sys()), Create(ref, templateId, selector, at)) == Some(Sys())
      ensures ok <==> templateId in templates && ref !in old(actors.actors)
    {
      ghost var s, e := Sys(), Create(ref, templateId, selector, at);
      ok := false;
      if templateId in templates {
        var put := actors.Put(NewActor(ref, templateId, selector, at), None, at);
        ok := put.ActorStored?;
      }
      ReachableStep(workers.config, s, e, Sys());
    }

    method RegisterTemplate(t: Template)
      requires Valid()
      modifies this`templates
      ensures Valid() && Apply(workers.config, old(Sys()), O.RegisterTemplate(t)) == Some(Sys())
    {
      ghost var s := Sys();
      templates := templates[t.templateId := t];
      ReachableStep(workers.config, s, O.RegisterTemplate(t), Sys());
    }

    // A client's call starts; joiners of a resume in progress start none.
    method Start(id: TaskId, t: Task)
      requires Valid() && id !in tasks && Starting(t) && (t.Resume? ==> !HasLeader(Sys(), t.ref))
      modifies this`tasks
      ensures At(id, t) && Apply(workers.config, old(Sys()), Begin(id, t)) == Some(Sys())
    {
      ghost var s := Sys();
      tasks := tasks[id := t];
      ReachableStep(workers.config, s, Begin(id, t), Sys());
    }

    // ---- resume_actor ----

    // The call is over at once exactly without record or template, or with the actor
    // running on a worker claimed for it.
    method ReadActor(id: TaskId, ref: ActorRef, ghost ch: Choice) returns (next: Task)
      requires At(id, Resume(ref, Read))
      modifies this`tasks
      ensures Went(old(Sys()), id, ch, next)
      ensures next.Ended? <==>
        ref !in actors.actors || Running(Sys(), ref) || actors.actors[ref].templateId !in templates
      ensures Running(Sys(), ref) ==> Placed(Sys(), ref)
    {
      ghost var c, s := workers.config, Sys();
      if Running(s, ref) {
        RunningIsPlaced(c, s, ref);
      }
      next := Ended(ref);
      var found := actors.Get(ref);
      if found.Found? {
        var a := found.record;
        if !(a.status.RUNNING? && a.assignment.Some?) && a.templateId in templates {
          next := Resume(ref, Probe(templates[a.templateId]));
        }
      }
      tasks := tasks[id := next];
      Goes(s, id, ch, next);
    }

    // load-actor: is_complete, which never holds, then execute.
    method ProbeActor(id: TaskId, ref: ActorRef, tm: Template, ghost ch: Choice) returns (next: Task)
      requires At(id, Resume(ref, Probe(tm)))
      modifies this`tasks
      ensures Went(old(Sys()), id, ch, next)
      ensures next == if ref in actors.actors then Resume(ref, Load(tm)) else Ended(ref)
    {
      ghost var c, s := workers.config, Sys();
      DeadBranches(c, s, id);
      next := Ended(ref);
      var found := actors.Get(ref);
      if found.Found? {
        var a := found.record;
        next := Resume(ref, if a.status.RUNNING? && a.assignment.Some? then Flip(tm, a) else Load(tm));
      }
      tasks := tasks[id := next];
      Goes(s, id, ch, next);
    }

    // Only an actor without assignment and without route is resumed.
    method LoadActor(id: TaskId, ref: ActorRef, tm: Template, ghost ch: Choice) returns (next: Task)
      requires At(id, Resume(ref, Load(tm)))
      modifies this`tasks
      ensures Went(old(Sys()), id, ch, next)
      ensures ref in bindings || ref !in actors.actors ==> next.Ended?
      ensures !next.Ended? ==>
        next == Resume(ref, Flip(tm, actors.actors[ref])) && actors.actors[ref].assignment.None?
    {
      ghost var c, s := workers.config, Sys();
      if ref in bindings {
        RouterIsSound(c, s, ref);
      }
      if ref in s.actors {
        RecordsFit(c, s, ref);
      }
      next := Ended(ref);
      var found := actors.Get(ref);
      if found.Found? && Detached(found.record.status) {
        next := Resume(ref, Flip(tm, found.record));
      }
      tasks := tasks[id := next];
      Goes(s, id, ch, next);
    }

    // claim-worker: flip the record.  A conflict means that the actor crashed or is
    // being deleted.
    method FlipToResuming(id: TaskId, ref: ActorRef, tm: Template, a: Actor, ch: Choice) returns (next: Task)
      requires At(id, Resume(ref, Flip(tm, a)))
      modifies this`tasks, actors
      ensures Went(old(Sys()), id, ch, next)
      ensures next.Ended? <==> ref !in old(actors.actors)
      ensures next.Resume? && next.resume.Reread? ==>
        ref in actors.actors && A.Overtaking(actors.actors[ref].status) && actors.actors == old(actors.actors)
      ensures next.Resume? && !next.resume.Reread? ==>
        && ref in old(actors.actors) && ref in actors.actors && old(actors.actors[ref]) == a && ref !in bindings
        && next == Resume(ref, Claiming(tm, actors.actors[ref], 0, Acquire))
        && actors.actors[ref].status.RESUMING? && actors.actors[ref].version == a.version + 1
    {
      ghost var c, s := workers.config, Sys();
      LeaderIsCurrent(c, s, id);
      CopiesAreCurrent(c, s, id);
      var put := actors.Put(WithStatus(a, RESUMING), Some(a.version), ch.at);
      match put {
        case ActorStored(_, rec) => next := Resume(ref, Claiming(tm, rec, 0, Acquire));
        case ActorConflict => next := Resume(ref, Reread(tm));
        case ActorMissing => next := Ended(ref);
      }
      tasks := tasks[id := next];
      Goes(s, id, ch, next);
      if ref in bindings {
        RouterIsSound(c, Sys(), ref);
      }
    }

    // The re-read after a conflict never goes on.
    method RereadActor(id: TaskId, ref: ActorRef, tm: Template, ghost ch: Choice) returns (next: Task)
      requires At(id, Resume(ref, Reread(tm)))
      modifies this`tasks
      ensures Went(old(Sys()), id, ch, next)
      ensures next == Ended(ref)
    {
      ghost var c, s := workers.config, Sys();
      next := Ended(ref);
      var found := actors.Get(ref);
      if found.Found? && found.record.status.RESUMING? {
        next := Resume(ref, Claiming(tm, found.record, 0, Acquire));
      }
      tasks := tasks[id := next];
      Goes(s, id, ch, next);
      DeadBranches(c, s, id);
    }

    // One round of the claim loop: an idle worker, which nobody else has, or else
    // a call of `acquire`.
    method AcquireWorker(id: TaskId, ref: ActorRef, tm: Template, a: Actor, attempt: nat)
        returns (next: Task, ghost ch: Choice)
      requires At(id, Resume(ref, Claiming(tm, a, attempt, Acquire))) && id !in workers.sandboxes.pool.ops
      modifies this`tasks, workers`warm, workers.sandboxes`pool
      ensures Went(old(Sys()), id, ch, next)
      ensures next.Ended? <==> attempt >= MAX_CLAIM_RETRIES
      ensures next.Resume? && next.resume.claim.Claim? ==>
        var w := next.resume.claim.worker;
        && Eligible(workers.store.workers, ConstraintsFor(tm, a), w.workerId) && w.workerId !in workers.warm
        && H.NoHolder(actors.actors, tasks, w.workerId)
      ensures next.Resume? && !next.resume.claim.Claim? ==>
        && next.resume.claim.Wait? && workers.warm == old(workers.warm)
        && forall w :: w in workers.store.workers ==> !Eligible(workers.store.workers, ConstraintsFor(tm, a), w)
    {
      ghost var c, s := workers.config, Sys();
      ghost var pick: WorkerId := 0;
      if attempt >= MAX_CLAIM_RETRIES {
        next := Ended(ref);
      } else {
        var picked := workers.BeginAcquire(ConstraintsFor(tm, a), id);
        if picked.Idle? {
          pick := picked.worker.workerId;
          next := Resume(ref, Claiming(tm, a, attempt, Claim(picked.worker)));
        } else {
          next := Resume(ref, Claiming(tm, a, attempt, Wait));
        }
      }
      tasks := tasks[id := next];
      ch := Choice(pick, Succeeds, 0, 0, "", true, 0);
      assert StepAcquire(c, s, id, ref, tm, a, attempt, pick) == Some(Sys());
      Goes(s, id, ch, next);
      if next.Resume? && next.resume.claim.Claim? {
        UnclaimedIsFree(c, Sys(), pick);
      }
    }

    // `acquire` returned a sandbox, or raised.  The sandbox is nobody else's.
    method TakeSandbox(id: TaskId, ref: ActorRef, tm: Template, a: Actor, attempt: nat, got: Option<P.Sandbox>,
                       ghost ch: Choice) returns (next: Task)
      requires At(id, Resume(ref, Claiming(tm, a, attempt, Wait))) && id in workers.sandboxes.pool.ops
      requires workers.sandboxes.pool.ops[id] == if got.Some? then P.AcqDone(got.value) else P.AcqRaised
      modifies this`tasks, workers.sandboxes`pool
      ensures Went(old(Sys()), id, ch, next)
      ensures got.None? ==> next == Ended(ref)
      ensures got.Some? ==>
        && next == Resume(ref, Claiming(tm, a, attempt, ClaimStage.Register(got.value)))
        && P.HeldBy(workers.sandboxes.pool, W.OWNER, got.value)
        && forall w :: w in workers.store.workers ==> workers.store.workers[w].sandbox != got
    {
      ghost var c, s := workers.config, Sys();
      workers.RecordReturn(id, got);
      next := Ended(ref);
      if got.Some? {
        next := Resume(ref, Claiming(tm, a, attempt, ClaimStage.Register(got.value)));
      }
      tasks := tasks[id := next];
      WaitEnds(c, s, id, ref, tm, a, attempt, got, ch);
      Goes(s, id, ch, next);
      if got.Some? {
        UnregisteredIsNew(c, Sys(), id, got.value);
      }
    }

    // The new worker has a record and a sandbox of its own.
    method RegisterWorker(id: TaskId, ref: ActorRef, tm: Template, a: Actor, attempt: nat, sb: P.Sandbox, ch: Choice)
        returns (next: Task)
      requires At(id, Resume(ref, Claiming(tm, a, attempt, ClaimStage.Register(sb))))
      requires ch.worker !in workers.usedIds
      modifies this`tasks, workers, workers.store
      ensures Went(old(Sys()), id, ch, next)
      ensures next.Resume? && next.resume.Claiming? && next.resume.claim.Claim?
      ensures var w := next.resume.claim.worker;
        && w == W.NewWorker(workers.config, ch.worker, ch.kind, sb)
        && workers.store.workers == old(workers.store.workers)[ch.worker := w]
        && ch.worker !in old(workers.store.workers)
        && forall o :: o in old(workers.store.workers) ==> old(workers.store.workers[o]).sandbox != Some(sb)
    {
      ghost var c, s := workers.config, Sys();
      UnregisteredIsNew(c, s, id, sb);
      UnusedIsNew(c, s, ch.worker);
      var w := workers.Materialise(sb, ch.kind, ch.worker);
      next := Resume(ref, Claiming(tm, a, attempt, Claim(w)));
      tasks := tasks[id := next];
      Goes(s, id, ch, next);
    }

    // A claim starts from a worker nobody has and makes this operation its only
    // holder; it is lost exactly to a newer version of the record.
    method ClaimWorker(id: TaskId, ref: ActorRef, tm: Template, a: Actor, attempt: nat, w: Worker, ch: Choice)
        returns (next: Task)
      requires At(id, Resume(ref, Claiming(tm, a, attempt, Claim(w))))
      modifies this`tasks, workers.store
      ensures Went(old(Sys()), id, ch, next)
      ensures next.Resume? && next.resume.Setup? ==>
        && old(H.NoHolder(actors.actors, tasks, w.workerId))
        && H.ClaimedFor(workers.Reg(), ref, w.workerId)
        && forall h :: H.HeldBy(actors.actors, tasks, h) == Some(w.workerId) <==> h == H.ByTask(id)
      ensures next.Resume? && !next.resume.Setup? ==>
        && next == Resume(ref, Claiming(tm, a, attempt, Drain(w))) && workers.Reg() == old(workers.Reg())
        && w.workerId in workers.store.workers && workers.store.workers[w.workerId].version > w.version
      ensures next.Ended? ==> w.workerId !in workers.store.workers && workers.Reg() == old(workers.Reg())
    {
      ghost var c, s := workers.config, Sys();
      ClaimOutcome(c, s, id, ref, tm, a, attempt, w, ch.at);
      var claimed := workers.ClaimForActor(w, AssignmentFor(ref, w, ch.at));
      match claimed {
        case WorkerStored(_, rec) => next := Resume(ref, Setup(tm, a, rec, SetupStage.Restore));
        case WorkerMissing => next := Ended(ref);
        case _ => next := Resume(ref, Claiming(tm, a, attempt, Drain(w)));
      }
      tasks := tasks[id := next];
      Goes(s, id, ch, next);
      if next.Resume? && next.resume.Setup? {
        HeldAlone(c, Sys(), id, w.workerId);
      }
    }

    // The drain of a lost worker changes nothing, and raises unless the worker is gone.
    method DrainLost(id: TaskId, ref: ActorRef, tm: Template, a: Actor, attempt: nat, w: Worker, ch: Choice,
                     now: Time) returns (next: Task)
      requires At(id, Resume(ref, Claiming(tm, a, attempt, Drain(w))))
      requires now == workers.sandboxes.pool.now
      modifies this`tasks, workers, workers.store, workers.sandboxes
      ensures Went(old(Sys()), id, ch, next)
      ensures workers.Reg() == old(workers.Reg())
      ensures next == if w.workerId in workers.store.workers then Ended(ref)
          else Resume(ref, Claiming(tm, a, attempt + 1, Acquire))
    {
      ghost var c, s := workers.config, Sys();
      LosersAreHarmless(c, s, id, ch);
      ClaimIsCurrent(c, s, id);
      var released := workers.Release(w, true, ch.alive, now);
      next := if released then Resume(ref, Claiming(tm, a, attempt + 1, Acquire)) else Ended(ref);
      tasks := tasks[id := next];
      Goes(s, id, ch, next);
    }

    // restore-or-boot: the actor's own snapshot, or else the template's.  If it
    // fails, the claimed worker is lost.
    method RestoreOwn(id: TaskId, ref: ActorRef, tm: Template, a: Actor, w: Worker, ch: Choice) returns (next: Task)
      requires At(id, Resume(ref, Setup(tm, a, w, SetupStage.Restore)))
      modifies this`tasks, this`disk
      ensures Went(old(Sys()), id, ch, next)
      ensures next.Ended? ==> Orphan(Sys(), w.workerId)
      ensures a.snapshot.Some? && !next.Ended? ==>
        Holds(disk, w, a.snapshot.value) && next == Resume(ref, Setup(tm, a, w, Check))
      ensures a.snapshot.None? ==>
        disk == old(disk) && (tm.templateId in golden <==> next.Resume? && next.resume.setup.Golden?)
    {
      ghost var c, s := workers.config, Sys();
      HolderAtRisk(c, s, id, w.workerId);
      OrphanedIff(c, s, Advance(id, ch), w.workerId);
      if a.snapshot.Some? {
        next := Ended(ref);
        if ch.io.Succeeds? && w.sandbox.Some? && a.snapshot.value in disk.snapshots {
          disk := disk.(trees := disk.trees[w.sandbox.value := disk.snapshots[a.snapshot.value]]);
          next := Resume(ref, Setup(tm, a, w, Check));
        }
      } else if tm.templateId in golden {
        next := Resume(ref, Setup(tm, a, w, Golden(golden[tm.templateId])));
      } else {
        next := Resume(ref, Setup(tm, a, w, Capture));
      }
      tasks := tasks[id := next];
      Goes(s, id, ch, next);
    }

    // Only an actor without a snapshot of its own gets the template's; a snapshot
    // that is gone is forgiven, any other failure loses the worker.
    method RestoreGolden(id: TaskId, ref: ActorRef, tm: Template, a: Actor, w: Worker, snap: SnapshotRef, ch: Choice)
        returns (next: Task)
      requires At(id, Resume(ref, Setup(tm, a, w, Golden(snap))))
      modifies this`tasks, this`disk
      ensures Went(old(Sys()), id, ch, next)
      ensures a.snapshot.None?
      ensures next.Ended? ==> Orphan(Sys(), w.workerId) && disk == old(disk)
      ensures ch.io.Succeeds? && !next.Ended? ==> Holds(disk, w, snap)
      ensures next.Ended? <==> !ch.io.Absent? && !(ch.io.Succeeds? && CanRestore(old(Sys()), w, snap))
    {
      ghost var c, s := workers.config, Sys();
      HolderAtRisk(c, s, id, w.workerId);
      OrphanedIff(c, s, Advance(id, ch), w.workerId);
      BootsClean(c, s, id);
      if ch.io.Succeeds? && w.sandbox.Some? && snap in disk.snapshots {
        disk := disk.(trees := disk.trees[w.sandbox.value := disk.snapshots[snap]]);
        next := Resume(ref, Setup(tm, a, w, Check));
      } else if ch.io.Absent? {
        next := Resume(ref, Setup(tm, a, w, if tm.templateId in golden then Check else Capture));
      } else {
        next := Ended(ref);
      }
      tasks := tasks[id := next];
      Goes(s, id, ch, next);
    }

    // What the sandbox holds becomes the template's snapshot, under a new reference;
    // a failure is ignored.
    method CaptureGolden(id: TaskId, ref: ActorRef, tm: Template, a: Actor, w: Worker, ch: Choice)
        returns (next: Task)
      requires At(id, Resume(ref, Setup(tm, a, w, Capture)))
      requires ch.io.Succeeds? ==> ch.snapshot !in disk.snapshots
      modifies this`tasks, this`disk, this`golden
      ensures Went(old(Sys()), id, ch, next)
      ensures a.snapshot.None? && next == Resume(ref, Setup(tm, a, w, Check))
      ensures forall snap :: snap in old(disk).snapshots ==>
        snap in disk.snapshots && disk.snapshots[snap] == old(disk).snapshots[snap]
      ensures ch.io.Succeeds? ==>
        && tm.templateId in golden && golden[tm.templateId] !in old(disk).snapshots
        && golden[tm.templateId] in disk.snapshots && disk.snapshots[golden[tm.templateId]] == TreeOf(disk, w)
    {
      ghost var c, s := workers.config, Sys();
      BootsClean(c, s, id);
      if ch.io.Succeeds? {
        disk := disk.(snapshots := disk.snapshots[ch.snapshot := TreeOf(disk, w)]);
        golden := golden[tm.templateId := ch.snapshot];
      }
      next := Resume(ref, Setup(tm, a, w, Check));
      tasks := tasks[id := next];
      Goes(s, id, ch, next);
    }

    // finalize-running: is_complete, which never holds, then execute.
    method CheckRunning(id: TaskId, ref: ActorRef, tm: Template, a: Actor, w: Worker, ghost ch: Choice)
        returns (next: Task)
      requires At(id, Resume(ref, Setup(tm, a, w, Check)))
      modifies this`tasks
      ensures Went(old(Sys()), id, ch, next)
      ensures next == if ref in actors.actors then Resume(ref, Setup(tm, a, w, Finalize)) else Ended(ref)
      ensures next.Ended? ==> Orphan(Sys(), w.workerId)
    {
      ghost var c, s := workers.config, Sys();
      HolderAtRisk(c, s, id, w.workerId);
      OrphanedIff(c, s, Advance(id, ch), w.workerId);
      next := Ended(ref);
      var found := actors.Get(ref);
      if found.Found? && !(found.record.status.RUNNING? && found.record.assignment.Some?) {
        next := Resume(ref, Setup(tm, a, w, Finalize));
      }
      tasks := tasks[id := next];
      Goes(s, id, ch, next);
      DeadBranches(c, s, id);
    }

    // Either the actor runs on this worker, is routed there, and has its saved state
    // back; or the record is no longer the one the resume loaded, and the worker is lost.
    method FinalizeRunning(id: TaskId, ref: ActorRef, tm: Template, a: Actor, w: Worker, ch: Choice)
        returns (next: Task)
      requires At(id, Resume(ref, Setup(tm, a, w, Finalize)))
      modifies this`tasks, this`bindings, actors
      ensures Went(old(Sys()), id, ch, next)
      ensures Running(Sys(), ref) <==> ref in old(actors.actors) && old(actors.actors[ref]) == a
      ensures Running(Sys(), ref) ==>
        && Placed(Sys(), ref) && WorkerOf(Sys(), ref) == w.workerId
        && ref in bindings && actors.actors[ref].assignment == Some(bindings[ref])
        && (actors.actors[ref].snapshot.Some? ==> T.Restored(Sys(), ref))
      ensures !Running(Sys(), ref) ==>
        Orphan(Sys(), w.workerId) && bindings == old(bindings) && actors.actors == old(actors.actors)
    {
      ghost var c, s := workers.config, Sys();
      var assignment := AssignmentFor(ref, w, ch.at);
      var put := actors.Put(WithStatus(a, RUNNING).(assignment := Some(assignment)), Some(a.version), ch.at);
      next := Ended(ref);
      if put.ActorStored? {
        bindings := bindings[ref := assignment];
      } else if put.ActorConflict? {
        next := Resume(ref, Lost(assignment));
      }
      tasks := tasks[id := next];
      Goes(s, id, ch, next);
      FinalOutcome(c, s, id, ref, tm, a, w, ch, Sys());
    }

    // After a lost final write nothing is bound.
    method RereadRunning(id: TaskId, ref: ActorRef, assignment: Assignment, ghost ch: Choice) returns (next: Task)
      requires At(id, Resume(ref, Lost(assignment)))
      modifies this`tasks, this`bindings
      ensures Went(old(Sys()), id, ch, next)
      ensures next == Ended(ref) && bindings == old(bindings)
    {
      ghost var c, s := workers.config, Sys();
      var found := actors.Get(ref);
      if found.Found? && found.record.status.RUNNING? {
        bindings := bindings[ref := assignment];
      }
      next := Ended(ref);
      tasks := tasks[id := next];
      Goes(s, id, ch, next);
      DeadBranches(c, s, id);
    }

    // ---- suspend_actor, pause_actor ----

    // A running actor always has an assignment to stop.
    method ReadRunning(id: TaskId, ref: ActorRef, k: Kind, ghost ch: Choice) returns (next: Task)
      requires At(id, Stop(ref, k, StopRead))
      modifies this`tasks
      ensures Went(old(Sys()), id, ch, next)
      ensures next.Stop? <==> Running(Sys(), ref) && (k.Pause? || actors.actors[ref].templateId in templates)
      ensures next.Stop? ==> Placed(Sys(), ref) && next == Stop(ref, k, StopFlip(actors.actors[ref]))
    {
      ghost var c, s := workers.config, Sys();
      if Running(s, ref) {
        RunningIsPlaced(c, s, ref);
      }
      next := Ended(ref);
      var found := actors.Get(ref);
      if found.Found? {
        var a := found.record;
        if a.status.RUNNING? && (k.Pause? || a.templateId in templates) && a.assignment.Some? {
          next := Stop(ref, k, StopFlip(a));
        }
      }
      tasks := tasks[id := next];
      Goes(s, id, ch, next);
    }

    // The actor's worker passes to the operation.
    method FlipToStopping(id: TaskId, ref: ActorRef, k: Kind, a: Actor, ch: Choice) returns (next: Task)
      requires At(id, Stop(ref, k, StopFlip(a)))
      modifies this`tasks, actors
      ensures Went(old(Sys()), id, ch, next)
      ensures next.Stop? <==> Running(old(Sys()), ref) && old(actors.actors[ref]) == a
      ensures next.Stop? ==>
        && H.HeldByTask(next) == H.HeldByRef(old(actors.actors), ref) && H.HeldByRef(actors.actors, ref).None?
        && next == Stop(ref, k, Holding(actors.actors[ref], Fetch))
      ensures !next.Stop? ==> next == Ended(ref) && actors.actors == old(actors.actors)
    {
      ghost var c, s := workers.config, Sys();
      CopiesAreCurrent(c, s, id);
      var put := actors.Put(WithStatus(a, StopTransient(k)), Some(a.version), ch.at);
      next := if put.ActorStored? then Stop(ref, k, Holding(put.actor, Fetch)) else Ended(ref);
      tasks := tasks[id := next];
      Goes(s, id, ch, next);
    }

    // The worker is always found, claimed for the actor.
    method FetchWorker(id: TaskId, ref: ActorRef, k: Kind, a: Actor, ghost ch: Choice) returns (next: Task)
      requires At(id, Stop(ref, k, Holding(a, Fetch)))
      modifies this`tasks
      ensures Went(old(Sys()), id, ch, next)
      ensures next.Stop? && next.stop.Holding? && next.stop.hold.Save?
      ensures H.ClaimedFor(workers.Reg(), ref, next.stop.hold.worker.workerId)
        && H.HeldByTask(next) == old(H.HeldByTask(tasks[id]))
    {
      ghost var c, s := workers.config, Sys();
      StopsKeepTheirWorker(c, s, id, ch);
      next := Ended(ref);
      if a.assignment.Some? {
        var found := workers.store.Get(a.assignment.value.workerId);
        if found.Found? {
          next := Stop(ref, k, Holding(a, Save(found.record)));
        }
      }
      tasks := tasks[id := next];
      Goes(s, id, ch, next);
      HeldAlone(c, Sys(), id, next.stop.hold.worker.workerId);
    }

    // What the recorded worker's sandbox holds is stored under a new reference; a
    // failure loses the worker.
    method Checkpoint(id: TaskId, ref: ActorRef, k: Kind, a: Actor, w: Worker, ch: Choice) returns (next: Task)
      requires At(id, Stop(ref, k, Holding(a, Save(w))))
      requires ch.io.Succeeds? ==> ch.snapshot !in disk.snapshots
      modifies this`tasks, this`disk
      ensures Went(old(Sys()), id, ch, next)
      ensures next.Ended? <==> !ch.io.Succeeds?
      ensures next.Ended? ==> Orphan(Sys(), w.workerId) && disk == old(disk)
      ensures !next.Ended? ==>
        && next == Stop(ref, k, Holding(a, Unbind(w, ch.snapshot, TreeOf(old(disk), w))))
        && w.workerId in workers.store.workers && workers.store.workers[w.workerId] == w
        && ch.snapshot in disk.snapshots && disk.snapshots[ch.snapshot] == TreeOf(old(disk), w)
    {
      ghost var c, s := workers.config, Sys();
      StopsKeepTheirWorker(c, s, id, ch);
      FetchedIsStored(c, s, id);
      next := Ended(ref);
      if ch.io.Succeeds? && w.sandbox.Some? {
        var tree := TreeOf(disk, w);
        disk := disk.(snapshots := disk.snapshots[ch.snapshot := tree]);
        next := Stop(ref, k, Holding(a, Unbind(w, ch.snapshot, tree)));
      }
      tasks := tasks[id := next];
      Goes(s, id, ch, next);
    }

    // An actor that has been resumed meanwhile loses its route, not its worker.
    method UnbindActor(id: TaskId, ref: ActorRef, k: Kind, a: Actor, w: Worker, saved: SnapshotRef, tree: Tree,
                       ghost ch: Choice) returns (next: Task)
      requires At(id, Stop(ref, k, Holding(a, Unbind(w, saved, tree))))
      modifies this`tasks, this`bindings
      ensures Went(old(Sys()), id, ch, next)
      ensures next == Stop(ref, k, Holding(a, HoldStage.Release(w, saved, tree)))
      ensures ref !in bindings && forall r :: r != ref && r in old(bindings) ==>
        r in bindings && bindings[r] == old(bindings[r])
      ensures Running(Sys(), ref) ==> Placed(Sys(), ref) && WorkerOf(Sys(), ref) != w.workerId
    {
      ghost var c, s := workers.config, Sys();
      FetchedIsStored(c, s, id);
      if Running(s, ref) {
        TasksStayOffRunningWorkers(c, s, id, ref);
      }
      bindings := bindings - {ref};
      next := Stop(ref, k, Holding(a, HoldStage.Release(w, saved, tree)));
      tasks := tasks[id := next];
      Goes(s, id, ch, next);
    }

    // The release is never refused; the worker is idle and warm, or gone.
    method ReleaseWorker(id: TaskId, ref: ActorRef, k: Kind, a: Actor, w: Worker, saved: SnapshotRef,
                         tree: Tree, ch: Choice, now: Time) returns (next: Task)
      requires At(id, Stop(ref, k, Holding(a, HoldStage.Release(w, saved, tree))))
      requires now == workers.sandboxes.pool.now
      modifies this`tasks, workers, workers.store, workers.sandboxes
      ensures Went(old(Sys()), id, ch, next)
      ensures next == Stop(ref, k, StopCommit(a, saved, tree))
      ensures w.workerId in workers.store.workers ==>
        workers.store.workers[w.workerId].IsIdle() && w.workerId in workers.warm
    {
      ghost var c, s := workers.config, Sys();
      StopsKeepTheirWorker(c, s, id, ch);
      FetchedIsStored(c, s, id);
      var released := workers.Release(w, false, ch.alive, now);
      next := if released then Stop(ref, k, StopCommit(a, saved, tree)) else Ended(ref);
      tasks := tasks[id := next];
      Goes(s, id, ch, next);
    }

    // Either the record names the saved state, which is stored, and the actor is not
    // routed; or the record has moved on and nothing changes.
    method CommitStop(id: TaskId, ref: ActorRef, k: Kind, a: Actor, saved: SnapshotRef, tree: Tree, ch: Choice)
        returns (next: Task)
      requires At(id, Stop(ref, k, StopCommit(a, saved, tree)))
      modifies this`tasks, this`disk, actors
      ensures Went(old(Sys()), id, ch, next)
      ensures next == Ended(ref)
      ensures actors.actors != old(actors.actors) ==>
        && ref in old(actors.actors) && old(actors.actors[ref]) == a && ref in actors.actors
        && actors.actors[ref].status == StopFinal(k) && ref !in bindings
        && actors.actors[ref].snapshot == Some(saved)
        && ref in disk.saved && saved in disk.snapshots && disk.saved[ref] == disk.snapshots[saved]
      ensures actors.actors == old(actors.actors) ==> ref !in actors.actors || actors.actors[ref].version > a.version
    {
      ghost var c, s := workers.config, Sys();
      CopiesAreCurrent(c, s, id);
      var stopped := StoppedRecord(k, a, saved);
      var put := actors.Put(stopped, Some(a.version), ch.at);
      if put.ActorStored? {
        disk := disk.(saved := disk.saved[ref := tree]);
      }
      next := Ended(ref);
      tasks := tasks[id := next];
      assert Sys() == StepStopCommit(s, id, ref, k, a, saved, tree, ch.at);
      Goes(s, id, ch, next);
      if ref in bindings {
        RouterIsSound(c, Sys(), ref);
      }
      if put.ActorStored? {
        LastSaveIsStored(c, Sys(), ref);
      }
    }

    // The record of a finished suspend or pause.
    method StoppedRecord(k: Kind, a: Actor, saved: SnapshotRef) returns (stopped: Actor)
      ensures stopped == Stopped(k, a, saved)
    {
      stopped := WithStatus(a, StopFinal(k)).(snapshot := Some(saved), assignment := None);
      if k.Pause? && a.assignment.Some? {
        var node := a.assignment.value.node;
        if node.Some? && node.value != "" && PAUSE_NODE !in stopped.selector {
          stopped := stopped.(selector := stopped.selector[PAUSE_NODE := node.value]);
        }
      }
    }

    // ---- mark_crashed ----

    method ReadForCrash(id: TaskId, ref: ActorRef, ghost ch: Choice) returns (next: Task)
      requires At(id, Crash(ref, CrashRead))
      modifies this`tasks
      ensures Went(old(Sys()), id, ch, next)
      ensures next == if ref in actors.actors then Crash(ref, CrashUnbind(actors.actors[ref])) else Ended(ref)
    {
      ghost var c, s := workers.config, Sys();
      var found := actors.Get(ref);
      next := if found.Found? then Crash(ref, CrashUnbind(found.record)) else Ended(ref);
      tasks := tasks[id := next];
      Goes(s, id, ch, next);
    }

    // The route goes first, wherever the actor runs by now.
    method UnbindCrashed(id: TaskId, ref: ActorRef, a: Actor, ghost ch: Choice) returns (next: Task)
      requires At(id, Crash(ref, CrashUnbind(a)))
      modifies this`tasks, this`bindings
      ensures Went(old(Sys()), id, ch, next)
      ensures next == Crash(ref, CrashCommit(a)) && ref !in bindings
      ensures ref in old(bindings) ==>
        ref in actors.actors && actors.actors[ref].assignment == Some(old(bindings[ref]))
    {
      ghost var c, s := workers.config, Sys();
      if ref in bindings {
        RouterIsSound(c, s, ref);
      }
      bindings := bindings - {ref};
      next := Crash(ref, CrashCommit(a));
      tasks := tasks[id := next];
      Goes(s, id, ch, next);
    }

    // A record written since is left alone; a running actor's worker is lost.
    method CommitCrash(id: TaskId, ref: ActorRef, a: Actor, ch: Choice) returns (next: Task)
      requires At(id, Crash(ref, CrashCommit(a)))
      modifies this`tasks, actors
      ensures Went(old(Sys()), id, ch, next)
      ensures next == Ended(ref)
      ensures if ref in old(actors.actors) && old(actors.actors[ref]) == a then
          actors.actors[ref].status.CRASHED? && ref !in bindings
          && (Running(old(Sys()), ref) ==> a.assignment.Some? && Orphan(Sys(), a.assignment.value.workerId))
        else actors.actors == old(actors.actors)
    {
      ghost var c, s := workers.config, Sys();
      CopiesAreCurrent(c, s, id);
      if ref in bindings {
        CrashIsUnrouted(c, s, id);
      }
      if Running(s, ref) {
        RunnerAtRisk(c, s, ref);
        OrphanedIff(c, s, Advance(id, ch), WorkerOf(s, ref));
      }
      var put := actors.Put(WithStatus(a, CRASHED).(assignment := None), Some(a.version), ch.at);
      next := Ended(ref);
      tasks := tasks[id := next];
      Goes(s, id, ch, next);
    }

    // ---- delete_actor ----

    method ReadForDelete(id: TaskId, ref: ActorRef, ghost ch: Choice) returns (next: Task)
      requires At(id, Delete(ref, DeleteRead))
      modifies this`tasks
      ensures Went(old(Sys()), id, ch, next)
      ensures next.Delete? ==> next == Delete(ref, DeleteFlip(actors.actors[ref])) && !actors.actors[ref].IsActive()
      ensures next.Ended? <==> ref !in actors.actors || actors.actors[ref].IsActive()
    {
      ghost var c, s := workers.config, Sys();
      var found := actors.Get(ref);
      next := if found.Found? && !found.record.IsActive() then Delete(ref, DeleteFlip(found.record)) else Ended(ref);
      tasks := tasks[id := next];
      Goes(s, id, ch, next);
    }

    // A running actor is never flipped.
    method FlipToDeleting(id: TaskId, ref: ActorRef, a: Actor, ch: Choice) returns (next: Task)
      requires At(id, Delete(ref, DeleteFlip(a)))
      modifies this`tasks, actors
      ensures Went(old(Sys()), id, ch, next)
      ensures Running(old(Sys()), ref) ==> next == Delete(ref, DeleteReread) && actors.actors == old(actors.actors)
      ensures if ref in old(actors.actors) && old(actors.actors[ref]) == a then
          next == Delete(ref, DeleteErase) && actors.actors[ref].status.DELETING?
        else actors.actors == old(actors.actors) && (next == Delete(ref, DeleteErase) <==> ref !in actors.actors)
    {
      ghost var c, s := workers.config, Sys();
      CopiesAreCurrent(c, s, id);
      var put := actors.Put(WithStatus(a, DELETING), Some(a.version), ch.at);
      next := Delete(ref, if put.ActorConflict? then DeleteReread else DeleteErase);
      tasks := tasks[id := next];
      Goes(s, id, ch, next);
    }

    method RereadForDelete(id: TaskId, ref: ActorRef, ghost ch: Choice) returns (next: Task)
      requires At(id, Delete(ref, DeleteReread))
      modifies this`tasks
      ensures Went(old(Sys()), id, ch, next)
      ensures next == if ref in actors.actors
        && !actors.actors[ref].IsActive() then Delete(ref, DeleteErase) else Ended(ref)
    {
      ghost var c, s := workers.config, Sys();
      var found := actors.Get(ref);
      next := if found.Found? && !found.record.IsActive() then Delete(ref, DeleteErase) else Ended(ref);
      tasks := tasks[id := next];
      Goes(s, id, ch, next);
    }

    // Nothing is checked any more: the worker of an actor resumed since is lost.
    method EraseActor(id: TaskId, ref: ActorRef, ghost ch: Choice) returns (next: Task)
      requires At(id, Delete(ref, DeleteErase))
      modifies this`tasks, this`bindings, actors
      ensures Went(old(Sys()), id, ch, next)
      ensures next == Ended(ref) && ref !in bindings && actors.actors == old(actors.actors) - {ref}
      ensures Running(old(Sys()), ref) ==>
        Placed(old(Sys()), ref) && Orphan(Sys(), WorkerOf(old(Sys()), ref))
    {
      ghost var c, s := workers.config, Sys();
      if Running(s, ref) {
        RunnerAtRisk(c, s, ref);
        OrphanedIff(c, s, Advance(id, ch), WorkerOf(s, ref));
      }
      bindings := bindings - {ref};
      actors.Delete(ref);
      next := Ended(ref);
      tasks := tasks[id := next];
      Goes(s, id, ch, next);
    }
  }
}
