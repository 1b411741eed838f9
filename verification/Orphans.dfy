// Claims nobody gives back.  A failed restore and a crash leave the worker
// claimed with no actor running on it and no operation that would release it;
// such a worker, and its sandbox, are lost for the rest of the run.
module Orphans {
  import opened Wrappers
  import opened Collections
  import opened Model
  import opened Stores
  import opened WorkerPoolModel
  import opened OrchestratorModel
  import opened ActorSafety
  import opened WorkerSafety
  import opened SandboxSafety
  import opened OrchestratorTheorems
  import P = PoolModel

  predicate Claimed(r: Registry, id: WorkerId) {
    id in r.workers && r.workers[id].assignment.Some?
  }

  ghost predicate Orphan(s: Sys, id: WorkerId) {
    Claimed(s.reg, id) && NoHolder(s.actors, s.tasks, id)
  }

  // ---- once an orphan, always an orphan ----

  lemma EffectKeepsOrphan(r: Registry, e: RegEffect, id: WorkerId)
    requires TableOk(r) && RegLegal(r, e) && Claimed(r, id)
    requires Touches(e) == Some(id) ==> e.Assigned?
    ensures Claimed(RegAfter(r, e), id) && (e.Assigned? ==> e.id != id)
  {
  }

  lemma AdvanceKeepsOrphan(c: Config, s: Sys, id: TaskId, ch: Choice, w: WorkerId)
    requires Inv(c, s) && id in s.tasks && Step(c, s, id, ch).Some? && Orphan(s, w)
    ensures Orphan(Step(c, s, id, ch).value, w)
  {
    var q := Step(c, s, id, ch).value;
    var actorEffect := StepLegal(c, s, id, ch);
    AfterOnlyRecord(s.actors, s.tasks[id].ref, actorEffect);
    var e := StepAdvances(c, s, id, ch);
    assert HeldBy(s.actors, s.tasks, ByTask(id)) == HeldByTask(s.tasks[id]);
    EffectKeepsOrphan(s.reg, e, w);
    NobodyNew(c, s, id, q, e, w);
  }

  lemma NobodyNew(c: Config, s: Sys, id: TaskId, q: Sys, e: RegEffect, w: WorkerId)
    requires NoHolder(s.actors, s.tasks, w) && id in s.tasks && Advances(c, s, id, q, e)
    requires OnlyRecord(s.actors, q.actors, s.tasks[id].ref) && (e.Assigned? ==> e.id != w)
    ensures NoHolder(q.actors, q.tasks, w)
  {
    var mine, ours := ByTask(id), ByActor(s.tasks[id].ref);
    assert HeldBy(s.actors, s.tasks, mine) == HeldByTask(s.tasks[id]);
    assert HeldBy(s.actors, s.tasks, ours) == HeldByRef(s.actors, s.tasks[id].ref);
    forall h
      ensures HeldBy(q.actors, q.tasks, h) != Some(w)
    {
      if h == mine {
        assert HeldBy(q.actors, q.tasks, h) == HeldByTask(q.tasks[id]);
      } else if h == ours {
        assert HeldBy(q.actors, q.tasks, h) == HeldByRef(q.actors, s.tasks[id].ref);
      } else {
        assert HeldBy(q.actors, q.tasks, h) == HeldBy(s.actors, s.tasks, h);
      }
    }
  }

  lemma SweepKeepsOrphan(c: Config, s: Sys, order: seq<WorkerId>, w: WorkerId)
    requires Inv(c, s) && IsSweepOrder(c, s.reg, order) && Orphan(s, w)
    ensures Orphan(s.(reg := WorkerPoolModel.SweepWarm(c, s.reg, order)), w)
  {
    SweepSafe(c, s, order);
    assert w in s.reg.warm ==> WarmOk(s.reg, w);
  }

  lemma BeginKeepsOrphan(s: Sys, id: TaskId, t: Task, w: WorkerId)
    requires id !in s.tasks && Starting(t) && Orphan(s, w)
    ensures Orphan(Goto(s, id, t), w)
  {
    var q := Goto(s, id, t);
    forall h
      ensures HeldBy(q.actors, q.tasks, h) != Some(w)
    {
      if h != ByTask(id) {
        assert HeldBy(q.actors, q.tasks, h) == HeldBy(s.actors, s.tasks, h);
      }
    }
  }

  lemma CreateKeepsOrphan(s: Sys, a: Actor, at: Time, w: WorkerId)
    requires Orphan(s, w) && a.status.SUSPENDED?
    ensures match ActorPut(s.actors, a, None, at)
      case ActorStored(table, _) => Orphan(s.(actors := table), w)
      case _ => true
  {
    match ActorPut(s.actors, a, None, at)
    case ActorStored(table, _) =>
      forall h
        ensures HeldBy(table, s.tasks, h) == HeldBy(s.actors, s.tasks, h)
      {
      }
    case _ =>
  }

  lemma StepKeepsOrphan(c: Config, s: Sys, e: Event, w: WorkerId)
    requires Inv(c, s) && Apply(c, s, e).Some? && Orphan(s, w)
    ensures Orphan(Apply(c, s, e).value, w)
  {
    match e
    case Create(ref, templateId, selector, at) => CreateKeepsOrphan(s, NewActor(ref, templateId, selector, at), at, w);
    case Begin(id, task) => BeginKeepsOrphan(s, id, task, w);
    case Advance(id, choice) => AdvanceKeepsOrphan(c, s, id, choice, w);
    case SweepWarm(order) => SweepKeepsOrphan(c, s, order, w);
    case _ =>
  }

  // No later event, in any run, releases or retires an orphan.
  lemma {:induction false} OrphanForever(c: Config, s: Sys, es: seq<Event>, w: WorkerId)
    requires Inv(c, s) && Run(c, s, es).Some? && Orphan(s, w)
    ensures Orphan(Run(c, s, es).value, w)
  {
    if es == [] {
    } else {
      var front := es[..|es| - 1];
      OrphanForever(c, s, front, w);
      RunInv(c, s, front);
      StepKeepsOrphan(c, Run(c, s, front).value, es[|es| - 1], w);
    }
  }

  // ---- exactly when a worker is orphaned ----

  // The worker that the operation holds, or that its actor runs on if the
  // operation may end that.
  function AtRisk(s: Sys, id: TaskId): Option<WorkerId>
    requires id in s.tasks
  {
    match s.tasks[id]
    case Resume(_, _) => HeldByTask(s.tasks[id])
    case Stop(_, _, _) => HeldByTask(s.tasks[id])
    case Crash(ref, _) => HeldByRef(s.actors, ref)
    case Delete(ref, _) => HeldByRef(s.actors, ref)
    case Ended(_) => None
  }

  predicate AbandonsSetup(s: Sys, ref: ActorRef, a: Actor, w: Worker, st: SetupStage, io: IO) {
    match st
    case Restore => a.snapshot.Some? && !(io.Succeeds? && CanRestore(s, w, a.snapshot.value))
    case Golden(g) => !io.Absent? && !(io.Succeeds? && CanRestore(s, w, g))
    case Capture => false
    case Check => ref !in s.actors
    case Finalize => ref !in s.actors || s.actors[ref].version != a.version
  }

  // The branches that let go of a claimed worker without releasing it: a restore
  // or a checkpoint that fails, a resume whose actor is gone or was written to
  // before its final write, a crash or a removal of a running actor.
  predicate Abandoning(s: Sys, id: TaskId, ch: Choice)
    requires id in s.tasks
  {
    match s.tasks[id]
    case Resume(ref, Setup(_, a, w, st)) => AbandonsSetup(s, ref, a, w, st, ch.io)
    case Stop(_, _, Holding(_, st)) => st.Save? && !ch.io.Succeeds?
    case Crash(ref, CrashCommit(a)) => Running(s, ref) && s.actors[ref].version == a.version
    case Delete(ref, st) => st.DeleteErase? && Running(s, ref)
    case _ => false
  }

  // After the step neither the operation nor its actor has w, which is still claimed.
  predicate LetGo(s: Sys, id: TaskId, q: Sys, w: WorkerId)
    requires id in s.tasks
  {
    && Claimed(q.reg, w)
    && id in q.tasks && HeldByTask(q.tasks[id]) != Some(w) && HeldByRef(q.actors, s.tasks[id].ref) != Some(w)
  }

  lemma SetupLetsGo(s: Sys, id: TaskId, ref: ActorRef, tm: Template, a: Actor, w: Worker, st: SetupStage, ch: Choice)
    requires ReadyToStep(s, id, Resume(ref, Setup(tm, a, w, st))) && !st.Finalize?
    ensures var q := StepSetup(s, id, ref, tm, a, w, st, ch);
      q.Some? ==> (LetGo(s, id, q.value, w.workerId) <==> AbandonsSetup(s, ref, a, w, st, ch.io))
  {
  }

  lemma FinalizeLetsGo(s: Sys, id: TaskId, ref: ActorRef, tm: Template, a: Actor, w: Worker, at: Time)
    requires ReadyToStep(s, id, Resume(ref, Setup(tm, a, w, Finalize)))
    ensures LetGo(s, id, StepFinalize(s, id, ref, a, w, at), w.workerId)
      <==> ref !in s.actors || s.actors[ref].version != a.version
  {
    PutCases(s.actors, ref, a, WithStatus(a, RUNNING).(assignment := Some(AssignmentFor(ref, w, at))), at);
  }

  lemma HoldLetsGo(c: Config, s: Sys, id: TaskId, ref: ActorRef, k: Kind, a: Actor, st: HoldStage, ch: Choice)
    requires ReadyToStep(s, id, Stop(ref, k, Holding(a, st))) && !st.Release?
    requires HeldByRef(s.actors, ref) != HeldByTask(s.tasks[id])
    ensures var q := StepHolding(c, s, id, ref, k, a, st, ch);
      q.Some? ==> (LetGo(s, id, q.value, a.assignment.value.workerId) <==> st.Save? && !ch.io.Succeeds?)
  {
  }

  lemma ReleaseLetsGo(c: Config, s: Sys, id: TaskId, ref: ActorRef, k: Kind, a: Actor, w: Worker, saved: SnapshotRef,
                      tree: Tree, ch: Choice)
    requires ReadyToStep(s, id, Stop(ref, k, Holding(a, HoldStage.Release(w, saved, tree))))
    ensures !Claimed(StepRelease(c, s, id, ref, k, a, w, saved, tree, ch.alive).reg, a.assignment.value.workerId)
  {
    var e := ReleaseAdvance(c, s, id, ref, k, a, w, saved, tree, ch.alive);
  }

  lemma ResumeKeepsRunning(c: Config, s: Sys, id: TaskId, ref: ActorRef, st: ResumeStage, ch: Choice)
    requires Ready(s, Resume(ref, st)) && Running(s, ref)
    ensures var q := StepResume(c, s, id, ref, st, ch);
      q.Some? ==> ref in q.value.actors && q.value.actors[ref] == s.actors[ref]
  {
    var e := ResumeLegal(c, s, id, ref, st, ch);
  }

  lemma StopKeepsWorker(c: Config, s: Sys, id: TaskId, ref: ActorRef, k: Kind, st: StopStage, ch: Choice)
    requires id in s.tasks && s.tasks[id] == Stop(ref, k, st) && Ready(s, Stop(ref, k, st)) && Running(s, ref)
    ensures var q := StepStop(c, s, id, ref, k, st, ch); q.Some? ==>
      HeldByRef(q.value.actors, ref) == HeldByRef(s.actors, ref)
      || (id in q.value.tasks && HeldByTask(q.value.tasks[id]) == HeldByRef(s.actors, ref))
  {
    if st.StopFlip? {
      PutCases(s.actors, ref, st.actor, WithStatus(st.actor, StopTransient(k)), ch.at);
    } else {
      var e := StopLegal(c, s, id, ref, k, st, ch);
    }
  }

  lemma CrashLetsGo(s: Sys, id: TaskId, ref: ActorRef, st: CrashStage, ch: Choice, w: WorkerId)
    requires ReadyToStep(s, id, Crash(ref, st)) && HeldByRef(s.actors, ref) == Some(w) && Claimed(s.reg, w)
    ensures LetGo(s, id, StepCrash(s, id, ref, st, ch), w) <==> Abandoning(s, id, ch)
  {
    if st.CrashCommit? {
      PutCases(s.actors, ref, st.actor, WithStatus(st.actor, CRASHED).(assignment := None), ch.at);
    }
  }

  lemma DeleteLetsGo(s: Sys, id: TaskId, ref: ActorRef, st: DeleteStage, ch: Choice, w: WorkerId)
    requires ReadyToStep(s, id, Delete(ref, st)) && HeldByRef(s.actors, ref) == Some(w) && Claimed(s.reg, w)
    ensures LetGo(s, id, StepDelete(s, id, ref, st, ch), w) <==> Abandoning(s, id, ch)
  {
    if st.DeleteFlip? {
      PutCases(s.actors, ref, st.actor, WithStatus(st.actor, DELETING), ch.at);
    }
  }

  // The operation holds w.
  lemma HolderLetsGo(c: Config, s: Sys, id: TaskId, ch: Choice, w: WorkerId)
    requires id in s.tasks && ReadyToStep(s, id, s.tasks[id]) && Exclusive(s.actors, s.tasks)
    requires Step(c, s, id, ch).Some?
    requires HeldByTask(s.tasks[id]) == Some(w)
    ensures LetGo(s, id, Step(c, s, id, ch).value, w) <==> Abandoning(s, id, ch)
  {
    var t := s.tasks[id];
    assert HeldBy(s.actors, s.tasks, ByTask(id)) == Some(w);
    assert HeldBy(s.actors, s.tasks, ByActor(t.ref)) == HeldByRef(s.actors, t.ref);
    if t.Resume? {
      var st := t.resume;
      if st.setup.Finalize? {
        FinalizeLetsGo(s, id, t.ref, st.template, st.actor, st.worker, ch.at);
      } else {
        SetupLetsGo(s, id, t.ref, st.template, st.actor, st.worker, st.setup, ch);
      }
    } else {
      var a, st := t.stop.actor, t.stop.hold;
      if st.Release? {
        ReleaseLetsGo(c, s, id, t.ref, t.kind, a, st.worker, st.saved, st.tree, ch);
      } else {
        HoldLetsGo(c, s, id, t.ref, t.kind, a, st, ch);
      }
    }
  }

  // Its actor runs on w.
  lemma ActorLetsGo(c: Config, s: Sys, id: TaskId, ch: Choice, w: WorkerId)
    requires id in s.tasks && ReadyToStep(s, id, s.tasks[id]) && Step(c, s, id, ch).Some?
    requires HeldByRef(s.actors, s.tasks[id].ref) == Some(w) && HeldByTask(s.tasks[id]) != Some(w) && Claimed(s.reg, w)
    ensures LetGo(s, id, Step(c, s, id, ch).value, w) <==> AtRisk(s, id) == Some(w) && Abandoning(s, id, ch)
  {
    match s.tasks[id]
    case Resume(ref, st) => ResumeKeepsRunning(c, s, id, ref, st, ch);
    case Stop(ref, k, st) => StopKeepsWorker(c, s, id, ref, k, st, ch);
    case Crash(ref, st) => CrashLetsGo(s, id, ref, st, ch, w);
    case Delete(ref, st) => DeleteLetsGo(s, id, ref, st, ch, w);
    case Ended(_) =>
  }

  // Whoever else holds w goes on holding it.
  lemma LetGoIsOrphan(s: Sys, id: TaskId, q: Sys, w: WorkerId)
    requires Exclusive(s.actors, s.tasks) && !NoHolder(s.actors, s.tasks, w) && id in s.tasks
    requires OnlyRecord(s.actors, q.actors, s.tasks[id].ref)
    requires id in q.tasks && q.tasks == s.tasks[id := q.tasks[id]]
    ensures Orphan(q, w) <==>
      LetGo(s, id, q, w)
      && (HeldByTask(s.tasks[id]) == Some(w) || HeldByRef(s.actors, s.tasks[id].ref) == Some(w))
  {
    var mine, ours := ByTask(id), ByActor(s.tasks[id].ref);
    assert HeldBy(s.actors, s.tasks, mine) == HeldByTask(s.tasks[id]);
    assert HeldBy(s.actors, s.tasks, ours) == HeldByRef(s.actors, s.tasks[id].ref);
    assert HeldBy(q.actors, q.tasks, mine) == HeldByTask(q.tasks[id]);
    assert HeldBy(q.actors, q.tasks, ours) == HeldByRef(q.actors, s.tasks[id].ref);
    forall h | h != mine && h != ours
      ensures HeldBy(q.actors, q.tasks, h) == HeldBy(s.actors, s.tasks, h)
    {
    }
    var holder :| HeldBy(s.actors, s.tasks, holder) == Some(w);
  }

  lemma AdvanceOrphansIff(c: Config, s: Sys, id: TaskId, ch: Choice, w: WorkerId)
    requires Inv(c, s) && id in s.tasks && Step(c, s, id, ch).Some?
    requires Claimed(s.reg, w) && !NoHolder(s.actors, s.tasks, w)
    ensures Orphan(Step(c, s, id, ch).value, w) <==> AtRisk(s, id) == Some(w) && Abandoning(s, id, ch)
  {
    var q := Step(c, s, id, ch).value;
    var actorEffect := StepLegal(c, s, id, ch);
    AfterOnlyRecord(s.actors, s.tasks[id].ref, actorEffect);
    LetGoIsOrphan(s, id, q, w);
    if HeldByTask(s.tasks[id]) == Some(w) {
      HolderLetsGo(c, s, id, ch, w);
    } else if HeldByRef(s.actors, s.tasks[id].ref) == Some(w) {
      ActorLetsGo(c, s, id, ch, w);
    }
  }

  lemma CreateKeepsHolder(s: Sys, a: Actor, at: Time, h: Holder)
    requires HeldBy(s.actors, s.tasks, h).Some?
    ensures match ActorPut(s.actors, a, None, at)
      case ActorStored(table, _) => HeldBy(table, s.tasks, h) == HeldBy(s.actors, s.tasks, h)
      case _ => true
  {
  }

  lemma EventKeepsHolder(c: Config, s: Sys, e: Event, h: Holder)
    requires Apply(c, s, e).Some? && !e.Advance? && HeldBy(s.actors, s.tasks, h).Some?
    ensures var q := Apply(c, s, e).value; HeldBy(q.actors, q.tasks, h) == HeldBy(s.actors, s.tasks, h)
  {
    match e
    case Create(ref, templateId, selector, at) => CreateKeepsHolder(s, NewActor(ref, templateId, selector, at), at, h);
    case _ =>
  }

  // A claimed worker that someone holds becomes an orphan exactly when an
  // operation that has it, or whose actor does, takes one of these branches.
  lemma OrphanedIff(c: Config, s: Sys, e: Event, w: WorkerId)
    requires P.ValidConfig(c.pool) && Reachable(c, s) && Apply(c, s, e).Some?
    requires Claimed(s.reg, w) && !NoHolder(s.actors, s.tasks, w)
    ensures Orphan(Apply(c, s, e).value, w) <==>
      e.Advance? && e.id in s.tasks && AtRisk(s, e.id) == Some(w) && Abandoning(s, e.id, e.choice)
  {
    AlwaysInv(c, s);
    if e.Advance? {
      AdvanceOrphansIff(c, s, e.id, e.choice, w);
    } else {
      var h :| HeldBy(s.actors, s.tasks, h) == Some(w);
      EventKeepsHolder(c, s, e, h);
    }
  }

  lemma HolderAtRisk(c: Config, s: Sys, id: TaskId, w: WorkerId)
    requires P.ValidConfig(c.pool) && Reachable(c, s) && id in s.tasks && HeldByTask(s.tasks[id]) == Some(w)
    ensures Claimed(s.reg, w) && !NoHolder(s.actors, s.tasks, w) && AtRisk(s, id) == Some(w)
  {
    HeldAlone(c, s, id, w);
    assert HeldBy(s.actors, s.tasks, ByTask(id)) == Some(w);
  }

  lemma RunnerAtRisk(c: Config, s: Sys, ref: ActorRef)
    requires P.ValidConfig(c.pool) && Reachable(c, s) && Running(s, ref)
    ensures Placed(s, ref) && HeldByRef(s.actors, ref) == Some(WorkerOf(s, ref))
    ensures Claimed(s.reg, WorkerOf(s, ref)) && !NoHolder(s.actors, s.tasks, WorkerOf(s, ref))
  {
    RunningIsPlaced(c, s, ref);
    assert HeldBy(s.actors, s.tasks, ByActor(ref)) == Some(WorkerOf(s, ref));
  }

  // What becomes of the worker w, the task being t' after the step.
  ghost predicate Keeps(st: StopStage, ch: Choice, q: Sys, t': Task, w: WorkerId)
    requires st.Holding?
  {
    match st.hold
    case Fetch =>
      && t'.Stop? && t'.stop.Holding? && t'.stop.actor == st.actor
      && w in q.reg.workers && t'.stop.hold == Save(q.reg.workers[w])
    case Save(_) => if ch.io.Succeeds? then HeldByTask(t') == Some(w) else t'.Ended? && Orphan(q, w)
    case Unbind(_, _, _) => HeldByTask(t') == Some(w)
    case Release(_, _, _) =>
      t'.Stop? && t'.stop.StopCommit? && (w in q.reg.workers ==> q.reg.workers[w].IsIdle() && w in q.reg.warm)
  }

  lemma HoldKeeps(c: Config, s: Sys, id: TaskId, ref: ActorRef, k: Kind, a: Actor, st: HoldStage, ch: Choice)
    requires ReadyToStep(s, id, Stop(ref, k, Holding(a, st))) && (st.Save? ==> ch.io.Succeeds?)
    ensures var q := StepHolding(c, s, id, ref, k, a, st, ch);
      q.Some? ==>
        && id in q.value.tasks
        && Keeps(Holding(a, st), ch, q.value, q.value.tasks[id], a.assignment.value.workerId)
  {
    if st.Release? {
      var e := HolderReleases(c, s.reg, ref, st.worker, ch.alive);
    }
  }

  lemma FailedSaveOrphans(c: Config, s: Sys, id: TaskId, ch: Choice, w: WorkerId)
    requires P.ValidConfig(c.pool) && Reachable(c, s) && id in s.tasks && Step(c, s, id, ch).Some?
    requires s.tasks[id].Stop? && s.tasks[id].stop.Holding? && s.tasks[id].stop.hold.Save? && !ch.io.Succeeds?
    requires HeldByTask(s.tasks[id]) == Some(w)
    ensures var q := Step(c, s, id, ch).value; Orphan(q, w) && id in q.tasks && q.tasks[id].Ended?
  {
    HolderAtRisk(c, s, id, w);
    OrphanedIff(c, s, Advance(id, ch), w);
  }

  // A suspend or pause past its first flip always finds its worker, goes on
  // exactly when the checkpoint succeeds and leaves an orphan otherwise, and
  // then gives the worker back whatever happened to the actor meanwhile.
  lemma StopsKeepTheirWorker(c: Config, s: Sys, id: TaskId, ch: Choice)
    requires P.ValidConfig(c.pool) && Reachable(c, s) && id in s.tasks && Step(c, s, id, ch).Some?
    requires s.tasks[id].Stop? && s.tasks[id].stop.Holding?
    ensures HeldByTask(s.tasks[id]).Some?
    ensures var q := Step(c, s, id, ch).value;
      id in q.tasks && Keeps(s.tasks[id].stop, ch, q, q.tasks[id], HeldByTask(s.tasks[id]).value)
  {
    AlwaysInv(c, s);
    var stop := s.tasks[id].stop;
    assert TaskWorkerOk(s.reg, s.tasks[id]) && stop.actor.assignment.Some?;
    if stop.hold.Save? && !ch.io.Succeeds? {
      FailedSaveOrphans(c, s, id, ch, stop.hold.worker.workerId);
    } else {
      HoldKeeps(c, s, id, s.tasks[id].ref, s.tasks[id].kind, stop.actor, stop.hold, ch);
    }
  }

  // The final step of a resume: its actor runs on the worker, routed and with
  // its saved tree, exactly if the stored record is the one the resume works on;
  // otherwise nothing is written and the worker is lost.
  lemma FinalOutcome(c: Config, s: Sys, id: TaskId, ref: ActorRef, tm: Template, a: Actor, w: Worker, ch: Choice,
                     q: Sys)
    requires P.ValidConfig(c.pool) && Reachable(c, s) && id in s.tasks
    requires s.tasks[id] == Resume(ref, Setup(tm, a, w, Finalize)) && q == StepFinalize(s, id, ref, a, w, ch.at)
    ensures Running(q, ref) <==> ref in s.actors && s.actors[ref] == a
    ensures Running(q, ref) ==>
      && Placed(q, ref) && WorkerOf(q, ref) == w.workerId
      && ref in q.bindings && q.actors[ref].assignment == Some(q.bindings[ref])
      && (q.actors[ref].snapshot.Some? ==> OrchestratorTheorems.Restored(q, ref))
    ensures !Running(q, ref) ==> Orphan(q, w.workerId) && q.bindings == s.bindings && q.actors == s.actors
  {
    FinalizeApplies(c, s, Advance(id, ch), ref);
    DeadBranches(c, s, id);
    CopiesAreCurrent(c, s, id);
    HolderAtRisk(c, s, id, w.workerId);
    OrphanedIff(c, s, Advance(id, ch), w.workerId);
    ReachableStep(c, s, Advance(id, ch), q);
    if Running(q, ref) {
      StateRoundTrip(c, s, Advance(id, ch), ref);
      RunningIsPlaced(c, q, ref);
    }
  }

  // ---- what orphans cost ----

  function SandboxAt(r: Registry, id: WorkerId): P.Sandbox {
    if id in r.workers && r.workers[id].sandbox.Some? then r.workers[id].sandbox.value else 0
  }

  lemma WorkersFillPool(c: Config, s: Sys, ids: set<WorkerId>)
    requires P.ValidConfig(c.pool) && Reachable(c, s) && ids <= s.reg.workers.Keys
    ensures |ids| <= c.pool.maxSize
  {
    AlwaysInv(c, s);
    var f := map id | id in ids :: SandboxAt(s.reg, id);
    forall x | x in ids
      ensures f[x] in s.reg.pool.core.inUse
    {
      RegisteredSandboxes(c, s, x, x);
    }
    forall x, y | x in ids && y in ids && f[x] == f[y]
      ensures x == y
    {
      RegisteredSandboxes(c, s, x, y);
      RegisteredSandboxes(c, s, y, x);
    }
    InjectionCardinality(ids, s.reg.pool.core.inUse, f);
  }

  // The workers of running actors: one each, none of them an orphan.
  lemma BusyWorkers(c: Config, s: Sys) returns (busy: set<WorkerId>)
    requires Inv(c, s)
    ensures busy <= s.reg.workers.Keys && |RunningActors(s)| <= |busy|
    ensures forall id :: id in busy ==> !NoHolder(s.actors, s.tasks, id)
  {
    forall ref | ref in RunningActors(s)
      ensures Placed(s, ref) && HeldBy(s.actors, s.tasks, ByActor(ref)) == Some(WorkerOf(s, ref))
    {
      RunningPlaced(c, s, ref);
    }
    busy := BusyOnes(s);
  }

  lemma BusyOnes(s: Sys) returns (busy: set<WorkerId>)
    requires Exclusive(s.actors, s.tasks)
    requires forall ref :: ref in RunningActors(s) ==>
      Placed(s, ref) && HeldBy(s.actors, s.tasks, ByActor(ref)) == Some(WorkerOf(s, ref))
    ensures busy <= s.reg.workers.Keys && |RunningActors(s)| <= |busy|
    ensures forall id :: id in busy ==> !NoHolder(s.actors, s.tasks, id)
  {
    var f := map ref | ref in RunningActors(s) :: WorkerOf(s, ref);
    busy := set ref | ref in RunningActors(s) :: WorkerOf(s, ref);
    InjectionCardinality(RunningActors(s), busy, f);
  }

  // Every orphan is one running actor less that the pool has room for.
  lemma OrphansShrinkCapacity(c: Config, s: Sys, orphans: set<WorkerId>)
    requires P.ValidConfig(c.pool) && Reachable(c, s) && (forall id :: id in orphans ==> Orphan(s, id))
    ensures |RunningActors(s)| + |orphans| <= c.pool.maxSize
  {
    AlwaysInv(c, s);
    var busy := BusyWorkers(c, s);
    assert busy !! orphans by {
      forall id | id in busy
        ensures id !in orphans
      {
      }
    }
    assert |busy + orphans| == |busy| + |orphans|;
    WorkersFillPool(c, s, busy + orphans);
  }
}
