// What actors save, what the durable store keeps, and what sandboxes contain.
module SnapshotSafety {
  import opened Wrappers
  import opened Model
  import opened Stores
  import opened WorkerPoolModel
  import opened OrchestratorModel
  import opened ActorSafety
  import opened WorkerSafety
  import opened SandboxSafety
  import P = PoolModel

  // The durable store holds the actor's last committed tree under its reference.
  predicate RecordSaved(d: Disk, ref: ActorRef, a: Actor) {
    a.snapshot.Some? ==>
      a.snapshot.value in d.snapshots && ref in d.saved && d.saved[ref] == d.snapshots[a.snapshot.value]
  }

  // The worker's sandbox holds the actor's snapshot, if it has one.
  predicate SetUp(d: Disk, a: Actor, w: Worker) {
    a.snapshot.Some? ==>
      && a.snapshot.value in d.snapshots
      && w.sandbox.Some? && w.sandbox.value in d.trees
      && d.trees[w.sandbox.value] == d.snapshots[a.snapshot.value]
  }

  predicate Captured(d: Disk, saved: SnapshotRef, tree: Tree) {
    saved in d.snapshots && d.snapshots[saved] == tree
  }

  predicate TaskSaved(d: Disk, t: Task) {
    match t
    case Resume(_, Setup(_, a, w, st)) =>
      && (st.Check? || st.Finalize? ==> SetUp(d, a, w))
      && (st.Golden? || st.Capture? ==> a.snapshot.None?)
    case Stop(_, _, Holding(_, st)) => st.Unbind? || st.Release? ==> Captured(d, st.saved, st.tree)
    case Stop(_, _, StopCommit(_, saved, tree)) => Captured(d, saved, tree)
    case _ => true
  }

  ghost predicate SnapshotInv(s: Sys) {
    && (forall ref :: ref in s.actors ==> RecordSaved(s.disk, ref, s.actors[ref]))
    && (forall id :: id in s.tasks ==> TaskSaved(s.disk, s.tasks[id]))
  }

  // ---- what one step does to the disk ----

  datatype DiskEffect =
    | Idle
    | Stores(snap: SnapshotRef, tree: Tree)       // a new snapshot
    | Overwrites(sb: P.Sandbox, tree: Tree)       // new contents of a sandbox
    | Commits(ref: ActorRef, tree: Tree)          // a committed suspend or pause

  function DiskAfter(d: Disk, e: DiskEffect): Disk {
    match e
    case Idle => d
    case Stores(snap, tree) => d.(snapshots := d.snapshots[snap := tree])
    case Overwrites(sb, tree) => d.(trees := d.trees[sb := tree])
    case Commits(ref, tree) => d.(saved := d.saved[ref := tree])
  }

  predicate SettingUp(t: Task, sb: P.Sandbox) {
    t.Resume? && t.resume.Setup? && t.resume.worker.sandbox == Some(sb)
  }

  predicate DiskLegal(d: Disk, e: DiskEffect) {
    e.Stores? ==> e.snap !in d.snapshots
  }

  lemma EffectKeepsSaved(d: Disk, e: DiskEffect, t: Task)
    requires TaskSaved(d, t) && DiskLegal(d, e) && (e.Overwrites? ==> !SettingUp(t, e.sb))
    ensures TaskSaved(DiskAfter(d, e), t)
  {
  }

  lemma EffectKeepsRecordSaved(d: Disk, e: DiskEffect, ref: ActorRef, a: Actor)
    requires RecordSaved(d, ref, a) && DiskLegal(d, e) && (e.Commits? ==> e.ref != ref)
    ensures RecordSaved(DiskAfter(d, e), ref, a)
  {
  }

  predicate Saves(s: Sys, id: TaskId, q: Sys, e: DiskEffect)
    requires id in s.tasks
  {
    var ref := s.tasks[id].ref;
    && DiskLegal(s.disk, e)
    && q.disk == DiskAfter(s.disk, e)
    && (e.Overwrites? ==> SettingUp(s.tasks[id], e.sb))
    && (e.Commits? ==> e.ref == ref)
    && (ref in q.actors ==> RecordSaved(q.disk, ref, q.actors[ref]))
    && id in q.tasks && q.tasks == s.tasks[id := q.tasks[id]]
    && TaskSaved(q.disk, q.tasks[id])
  }

  // Two tasks never set the same sandbox up.
  lemma SetUpAlone(c: Config, s: Sys, id: TaskId, other: TaskId, sb: P.Sandbox)
    requires WorkerInv(c, s) && SandboxInv(c, s)
    requires id in s.tasks && other in s.tasks && SettingUp(s.tasks[id], sb) && SettingUp(s.tasks[other], sb)
    ensures id == other
  {
    var w, w' := s.tasks[id].resume.worker, s.tasks[other].resume.worker;
    assert TaskWorkerOk(s.reg, s.tasks[id]) && TaskWorkerOk(s.reg, s.tasks[other]);
    assert OwnedBy(s.reg.workers, s.tasks, ByWorker(w.workerId)) == Some(sb);
    assert OwnedBy(s.reg.workers, s.tasks, ByWorker(w'.workerId)) == Some(sb);
    assert HeldBy(s.actors, s.tasks, ByTask(id)) == Some(w.workerId);
    assert HeldBy(s.actors, s.tasks, ByTask(other)) == Some(w'.workerId);
  }

  lemma SaveMove(c: Config, s: Sys, id: TaskId, q: Sys, e: DiskEffect)
    requires WorkerInv(c, s) && SandboxInv(c, s) && SnapshotInv(s) && id in s.tasks && Saves(s, id, q, e)
    requires OnlyRecord(s.actors, q.actors, s.tasks[id].ref)
    ensures SnapshotInv(q)
  {
    forall i | i in s.tasks && i != id
      ensures TaskSaved(q.disk, s.tasks[i])
    {
      if e.Overwrites? && SettingUp(s.tasks[i], e.sb) {
        SetUpAlone(c, s, id, i, e.sb);
      }
      EffectKeepsSaved(s.disk, e, s.tasks[i]);
    }
    forall ref | ref in q.actors && ref != s.tasks[id].ref
      ensures RecordSaved(q.disk, ref, q.actors[ref])
    {
      EffectKeepsRecordSaved(s.disk, e, ref, s.actors[ref]);
    }
  }

  // ---- each step ----

  ghost predicate Savable(s: Sys, id: TaskId, t: Task) {
    && id in s.tasks && s.tasks[id] == t
    && Ready(s, t)
    && TaskWorkerOk(s.reg, t)
    && TaskSaved(s.disk, t)
    && (t.ref in s.actors ==> RecordSaved(s.disk, t.ref, s.actors[t.ref]))
  }

  // Steps that touch neither the actor table nor the disk.
  predicate Dry(s: Sys, id: TaskId, q: Sys) {
    && q.actors == s.actors && q.disk == s.disk
    && id in q.tasks && q.tasks == s.tasks[id := q.tasks[id]]
    && TaskSaved(s.disk, q.tasks[id])
  }

  lemma DrySaves(s: Sys, id: TaskId, q: Sys, t: Task)
    requires Savable(s, id, t) && Dry(s, id, q)
    ensures Saves(s, id, q, Idle)
  {
  }

  lemma ReadsDry(s: Sys, id: TaskId, ref: ActorRef, st: ResumeStage)
    requires Savable(s, id, Resume(ref, st)) && (st.Read? || st.Probe? || st.Load? || st.Reread? || st.Lost?)
    ensures Dry(s, id,
      match st
      case Probe(tm) => StepProbe(s, id, ref, tm)
      case Load(tm) => StepLoad(s, id, ref, tm)
      case Reread(tm) => StepReread(s, id, ref, tm)
      case Lost(asg) => StepLost(s, id, ref, asg)
      case _ => StepRead(s, id, ref))
  {
  }

  lemma FlipSaves(s: Sys, id: TaskId, ref: ActorRef, tm: Template, a: Actor, at: Time)
    requires Savable(s, id, Resume(ref, Flip(tm, a)))
    ensures Saves(s, id, StepFlip(s, id, ref, tm, a, at), Idle)
  {
  }

  lemma AcquireDry(c: Config, s: Sys, id: TaskId, ref: ActorRef, tm: Template, a: Actor, attempt: nat, pick: WorkerId)
    ensures var q := StepAcquire(c, s, id, ref, tm, a, attempt, pick); q.Some? ==> Dry(s, id, q.value)
  {
  }

  lemma WaitDry(c: Config, s: Sys, id: TaskId, ref: ActorRef, tm: Template, a: Actor, attempt: nat)
    ensures var q := StepWait(c, s, id, ref, tm, a, attempt); q.Some? ==> Dry(s, id, q.value)
  {
  }

  lemma RegisterDry(c: Config, s: Sys, id: TaskId, ref: ActorRef, tm: Template, a: Actor, attempt: nat, sb: P.Sandbox,
                    unused: WorkerId, kind: string)
    ensures var q := StepRegister(c, s, id, ref, tm, a, attempt, sb, unused, kind); q.Some? ==> Dry(s, id, q.value)
  {
  }

  lemma ClaimDry(c: Config, s: Sys, id: TaskId, ref: ActorRef, tm: Template, a: Actor, attempt: nat,
                 st: ClaimStage, ch: Choice)
    requires st.Claim? || st.Drain?
    ensures Dry(s, id, StepClaiming(c, s, id, ref, tm, a, attempt, st, ch).value)
  {
  }

  lemma RestoreSaves(s: Sys, id: TaskId, ref: ActorRef, tm: Template, a: Actor, w: Worker, ch: Choice)
      returns (e: DiskEffect)
    requires Savable(s, id, Resume(ref, Setup(tm, a, w, Restore)))
    ensures Saves(s, id, StepRestore(s, id, ref, tm, a, w, ch.io), e)
  {
    e := Idle;
    if a.snapshot.Some? && ch.io.Succeeds? && CanRestore(s, w, a.snapshot.value) {
      e := Overwrites(w.sandbox.value, s.disk.snapshots[a.snapshot.value]);
    }
  }

  lemma GoldenSaves(s: Sys, id: TaskId, ref: ActorRef, tm: Template, a: Actor, w: Worker, g: SnapshotRef, ch: Choice)
      returns (e: DiskEffect)
    requires Savable(s, id, Resume(ref, Setup(tm, a, w, Golden(g))))
    ensures Saves(s, id, StepGolden(s, id, ref, tm, a, w, g, ch.io), e)
  {
    e := if ch.io.Succeeds? && CanRestore(s, w, g) then Overwrites(w.sandbox.value, s.disk.snapshots[g]) else Idle;
  }

  lemma CaptureSaves(s: Sys, id: TaskId, ref: ActorRef, tm: Template, a: Actor, w: Worker, ch: Choice)
      returns (e: DiskEffect)
    requires Savable(s, id, Resume(ref, Setup(tm, a, w, Capture)))
    ensures var q := StepCapture(s, id, ref, tm, a, w, ch.io, ch.snapshot); q.Some? ==> Saves(s, id, q.value, e)
  {
    var q := StepCapture(s, id, ref, tm, a, w, ch.io, ch.snapshot);
    e := if q.Some? && ch.io.Succeeds? then Stores(ch.snapshot, TreeOf(s.disk, w)) else Idle;
  }

  lemma CheckDry(s: Sys, id: TaskId, ref: ActorRef, tm: Template, a: Actor, w: Worker)
    requires Savable(s, id, Resume(ref, Setup(tm, a, w, Check)))
    ensures Dry(s, id, StepCheck(s, id, ref, tm, a, w))
  {
  }

  lemma FinalizeSaves(s: Sys, id: TaskId, ref: ActorRef, tm: Template, a: Actor, w: Worker, at: Time)
    requires Savable(s, id, Resume(ref, Setup(tm, a, w, Finalize)))
    ensures Saves(s, id, StepFinalize(s, id, ref, a, w, at), Idle)
  {
  }

  lemma StopReadDry(s: Sys, id: TaskId, ref: ActorRef, k: Kind)
    ensures Dry(s, id, StepStopRead(s, id, ref, k))
  {
  }

  lemma StopFlipSaves(s: Sys, id: TaskId, ref: ActorRef, k: Kind, a: Actor, at: Time)
    requires Savable(s, id, Stop(ref, k, StopFlip(a)))
    ensures Saves(s, id, StepStopFlip(s, id, ref, k, a, at), Idle)
  {
  }

  lemma SaveSaves(s: Sys, id: TaskId, ref: ActorRef, k: Kind, a: Actor, w: Worker, ch: Choice) returns (e: DiskEffect)
    requires Savable(s, id, Stop(ref, k, Holding(a, Save(w))))
    ensures var q := StepSave(s, id, ref, k, a, w, ch.io, ch.snapshot); q.Some? ==> Saves(s, id, q.value, e)
  {
    var q := StepSave(s, id, ref, k, a, w, ch.io, ch.snapshot);
    e := if q.Some? && ch.io.Succeeds? && w.sandbox.Some? then Stores(ch.snapshot, TreeOf(s.disk, w)) else Idle;
  }

  lemma HoldDry(c: Config, s: Sys, id: TaskId, ref: ActorRef, k: Kind, a: Actor, st: HoldStage, ch: Choice)
    requires Savable(s, id, Stop(ref, k, Holding(a, st))) && !st.Save?
    ensures Dry(s, id, StepHolding(c, s, id, ref, k, a, st, ch).value)
  {
  }

  lemma StopCommitSaves(s: Sys, id: TaskId, ref: ActorRef, k: Kind, a: Actor, saved: SnapshotRef, tree: Tree, at: Time)
      returns (e: DiskEffect)
    requires Savable(s, id, Stop(ref, k, StopCommit(a, saved, tree)))
    ensures Saves(s, id, StepStopCommit(s, id, ref, k, a, saved, tree, at), e)
  {
    var put := ActorPut(s.actors, Stopped(k, a, saved), Some(a.version), at);
    e := if put.ActorStored? then Commits(ref, tree) else Idle;
  }

  lemma CrashSaves(s: Sys, id: TaskId, ref: ActorRef, st: CrashStage, ch: Choice)
    requires Savable(s, id, Crash(ref, st))
    ensures Saves(s, id, StepCrash(s, id, ref, st, ch), Idle)
  {
  }

  lemma DeleteSaves(s: Sys, id: TaskId, ref: ActorRef, st: DeleteStage, ch: Choice)
    requires Savable(s, id, Delete(ref, st))
    ensures Saves(s, id, StepDelete(s, id, ref, st, ch), Idle)
  {
  }

  // ---- every event ----

  lemma ClaimingSaves(c: Config, s: Sys, id: TaskId, ref: ActorRef, tm: Template, a: Actor, attempt: nat,
                      st: ClaimStage, ch: Choice)
    requires Savable(s, id, Resume(ref, Claiming(tm, a, attempt, st)))
    ensures var q := StepClaiming(c, s, id, ref, tm, a, attempt, st, ch); q.Some? ==> Saves(s, id, q.value, Idle)
  {
    match st {
      case Acquire => AcquireDry(c, s, id, ref, tm, a, attempt, ch.pick);
      case Wait => WaitDry(c, s, id, ref, tm, a, attempt);
      case Register(sb) => RegisterDry(c, s, id, ref, tm, a, attempt, sb, ch.worker, ch.kind);
      case _ => ClaimDry(c, s, id, ref, tm, a, attempt, st, ch);
    }
    var q := StepClaiming(c, s, id, ref, tm, a, attempt, st, ch);
    if q.Some? {
      DrySaves(s, id, q.value, Resume(ref, Claiming(tm, a, attempt, st)));
    }
  }

  lemma SetupSaves(s: Sys, id: TaskId, ref: ActorRef, tm: Template, a: Actor, w: Worker, st: SetupStage, ch: Choice)
      returns (e: DiskEffect)
    requires Savable(s, id, Resume(ref, Setup(tm, a, w, st)))
    ensures var q := StepSetup(s, id, ref, tm, a, w, st, ch); q.Some? ==> Saves(s, id, q.value, e)
  {
    e := Idle;
    match st
    case Restore => e := RestoreSaves(s, id, ref, tm, a, w, ch);
    case Golden(g) => e := GoldenSaves(s, id, ref, tm, a, w, g, ch);
    case Capture => e := CaptureSaves(s, id, ref, tm, a, w, ch);
    case Check =>
      CheckDry(s, id, ref, tm, a, w);
      DrySaves(s, id, StepCheck(s, id, ref, tm, a, w), Resume(ref, Setup(tm, a, w, st)));
    case Finalize => FinalizeSaves(s, id, ref, tm, a, w, ch.at);
  }

  lemma ResumeSaves(c: Config, s: Sys, id: TaskId, ref: ActorRef, st: ResumeStage, ch: Choice) returns (e: DiskEffect)
    requires Savable(s, id, Resume(ref, st))
    ensures var q := StepResume(c, s, id, ref, st, ch); q.Some? ==> Saves(s, id, q.value, e)
  {
    e := Idle;
    match st
    case Flip(tm, a) => FlipSaves(s, id, ref, tm, a, ch.at);
    case Claiming(tm, a, attempt, claim) => ClaimingSaves(c, s, id, ref, tm, a, attempt, claim, ch);
    case Setup(tm, a, w, setup) => e := SetupSaves(s, id, ref, tm, a, w, setup, ch);
    case _ =>
      ReadsDry(s, id, ref, st);
      DrySaves(s, id, StepResume(c, s, id, ref, st, ch).value, Resume(ref, st));
  }

  lemma HoldingSaves(c: Config, s: Sys, id: TaskId, ref: ActorRef, k: Kind, a: Actor, st: HoldStage, ch: Choice)
      returns (e: DiskEffect)
    requires Savable(s, id, Stop(ref, k, Holding(a, st)))
    ensures var q := StepHolding(c, s, id, ref, k, a, st, ch); q.Some? ==> Saves(s, id, q.value, e)
  {
    if st.Save? {
      e := SaveSaves(s, id, ref, k, a, st.worker, ch);
    } else {
      HoldDry(c, s, id, ref, k, a, st, ch);
      DrySaves(s, id, StepHolding(c, s, id, ref, k, a, st, ch).value, Stop(ref, k, Holding(a, st)));
      e := Idle;
    }
  }

  lemma StopSaves(c: Config, s: Sys, id: TaskId, ref: ActorRef, k: Kind, st: StopStage, ch: Choice)
      returns (e: DiskEffect)
    requires Savable(s, id, Stop(ref, k, st))
    ensures var q := StepStop(c, s, id, ref, k, st, ch); q.Some? ==> Saves(s, id, q.value, e)
  {
    e := Idle;
    match st
    case StopRead =>
      StopReadDry(s, id, ref, k);
      DrySaves(s, id, StepStopRead(s, id, ref, k), Stop(ref, k, st));
    case StopFlip(a) => StopFlipSaves(s, id, ref, k, a, ch.at);
    case Holding(a, hold) => e := HoldingSaves(c, s, id, ref, k, a, hold, ch);
    case StopCommit(a, saved, tree) => e := StopCommitSaves(s, id, ref, k, a, saved, tree, ch.at);
  }

  lemma StepSaves(c: Config, s: Sys, id: TaskId, ch: Choice) returns (e: DiskEffect)
    requires id in s.tasks && Savable(s, id, s.tasks[id])
    ensures var q := Step(c, s, id, ch); q.Some? ==> Saves(s, id, q.value, e)
  {
    e := Idle;
    match s.tasks[id]
    case Resume(ref, st) => e := ResumeSaves(c, s, id, ref, st, ch);
    case Stop(ref, k, st) => e := StopSaves(c, s, id, ref, k, st, ch);
    case Crash(ref, st) => CrashSaves(s, id, ref, st, ch);
    case Delete(ref, st) => DeleteSaves(s, id, ref, st, ch);
    case Ended(_) =>
  }

  lemma AdvanceSaves(c: Config, s: Sys, id: TaskId, ch: Choice)
    requires ActorInv(s.actors, s.tasks) && WorkerInv(c, s) && SandboxInv(c, s) && SnapshotInv(s)
    requires id in s.tasks && Step(c, s, id, ch).Some?
    ensures SnapshotInv(Step(c, s, id, ch).value)
  {
    var actorEffect := StepLegal(c, s, id, ch);
    AfterOnlyRecord(s.actors, s.tasks[id].ref, actorEffect);
    var e := StepSaves(c, s, id, ch);
    SaveMove(c, s, id, Step(c, s, id, ch).value, e);
  }

  lemma CreateSaves(s: Sys, a: Actor, at: Time)
    requires SnapshotInv(s) && a.snapshot.None?
    ensures match ActorPut(s.actors, a, None, at)
      case ActorStored(table, _) => SnapshotInv(s.(actors := table))
      case _ => true
  {
  }

  // A client's write into a sandbox no resume is setting up.
  lemma WriteSaves(s: Sys, sb: P.Sandbox, tree: Tree)
    requires SnapshotInv(s) && !BeingSetUp(s, sb)
    ensures SnapshotInv(s.(disk := s.disk.(trees := s.disk.trees[sb := tree])))
  {
    forall id | id in s.tasks
      ensures TaskSaved(s.disk.(trees := s.disk.trees[sb := tree]), s.tasks[id])
    {
      EffectKeepsSaved(s.disk, Overwrites(sb, tree), s.tasks[id]);
    }
  }

  lemma SnapshotStep(c: Config, s: Sys, e: Event)
    requires ActorInv(s.actors, s.tasks) && WorkerInv(c, s) && SandboxInv(c, s) && SnapshotInv(s)
    requires Apply(c, s, e).Some?
    ensures SnapshotInv(Apply(c, s, e).value)
  {
    match e
    case Create(ref, templateId, selector, at) => CreateSaves(s, NewActor(ref, templateId, selector, at), at);
    case Advance(id, choice) => AdvanceSaves(c, s, id, choice);
    case Write(sb, tree) => WriteSaves(s, sb, tree);
    case _ =>
  }
}
