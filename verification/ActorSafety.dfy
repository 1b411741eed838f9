// What the actor table and the tasks' copies of its records always satisfy.
module ActorSafety {
  import opened Wrappers
  import opened Model
  import opened Stores
  import opened WorkerPoolModel
  import opened OrchestratorModel

  // A record carries an assignment exactly as its status says; a record being
  // deleted may come from either side.
  predicate Shape(a: Actor) {
    && (Detached(a.status) ==> a.assignment.None?)
    && (Attached(a.status) ==> a.assignment.Some?)
  }

  predicate RecordOk(ref: ActorRef, a: Actor) {
    a.Ref() == ref && a.version >= 1 && Shape(a)
  }

  predicate Overtaking(st: ActorStatus) {
    st.CRASHED? || st.DELETING?
  }

  // A copy is never newer than the record, and equal versions mean equal records.
  predicate CopyOk(actors: Actors, ref: ActorRef, a: Actor) {
    && RecordOk(ref, a)
    && (ref in actors ==> a.version <= actors[ref].version)
    && (ref in actors && a.version == actors[ref].version ==> a == actors[ref])
  }

  predicate Overtaken(actors: Actors, ref: ActorRef) {
    ref in actors ==> Overtaking(actors[ref].status)
  }

  // The only way a leading resume loses its record is a crash or a delete.
  predicate Uncontested(actors: Actors, ref: ActorRef, a: Actor) {
    ref in actors && actors[ref].version != a.version ==> Overtaken(actors, ref)
  }

  predicate ResumeActorOk(actors: Actors, ref: ActorRef, st: ResumeStage) {
    match st
    case Read => true
    case Probe(_) => ref in actors ==> !actors[ref].status.RUNNING?
    case Load(_) => ref in actors ==> !actors[ref].status.RUNNING?
    case Flip(_, a) => CopyOk(actors, ref, a) && Uncontested(actors, ref, a) && Detached(a.status)
    case Reread(_) => Overtaken(actors, ref)
    case Claiming(_, a, _, _) => CopyOk(actors, ref, a) && Uncontested(actors, ref, a) && a.status.RESUMING?
    case Setup(_, a, _, _) => CopyOk(actors, ref, a) && Uncontested(actors, ref, a) && a.status.RESUMING?
    case Lost(_) => Overtaken(actors, ref)
  }

  predicate StopActorOk(actors: Actors, ref: ActorRef, k: Kind, st: StopStage) {
    match st
    case StopRead => true
    case StopFlip(a) => CopyOk(actors, ref, a) && a.status.RUNNING?
    case Holding(a, _) => CopyOk(actors, ref, a) && a.status == StopTransient(k)
    case StopCommit(a, _, _) => CopyOk(actors, ref, a) && a.status == StopTransient(k)
  }

  predicate TaskActorOk(actors: Actors, t: Task) {
    match t
    case Resume(ref, st) => ResumeActorOk(actors, ref, st)
    case Stop(ref, k, st) => StopActorOk(actors, ref, k, st)
    case Crash(ref, st) => !st.CrashRead? ==> CopyOk(actors, ref, st.actor)
    case Delete(ref, st) => st.DeleteFlip? ==> CopyOk(actors, ref, st.actor) && !st.actor.IsActive()
    case Ended(_) => true
  }

  ghost predicate OneLeader(tasks: map<TaskId, Task>) {
    forall i, j :: i in tasks && j in tasks && tasks[i].Resume? && tasks[j].Resume? && tasks[i].ref == tasks[j].ref
      ==> i == j
  }

  ghost predicate ActorInv(actors: Actors, tasks: map<TaskId, Task>) {
    && (forall ref :: ref in actors ==> RecordOk(ref, actors[ref]))
    && (forall id :: id in tasks ==> TaskActorOk(actors, tasks[id]))
    && OneLeader(tasks)
  }

  // ---- the protocol's edges ----

  // The status changes one successful write may make.
  predicate Edge(before: ActorStatus, after: ActorStatus) {
    || (Detached(before) && after.RESUMING?)
    || (before.RESUMING? && after.RUNNING?)
    || (before.RUNNING? && (after.SUSPENDING? || after.PAUSING?))
    || (before.SUSPENDING? && after.SUSPENDED?)
    || (before.PAUSING? && after.PAUSED?)
    || after.CRASHED?
    || (!before.RUNNING? && !before.RESUMING? && after.DELETING?)
  }

  ghost predicate EdgesOnly(before: Actors, after: Actors) {
    forall ref :: ref in after && (ref !in before || before[ref] != after[ref]) ==>
      if ref in before then
        after[ref].version == before[ref].version + 1 && Edge(before[ref].status, after[ref].status)
      else after[ref].version == 1 && after[ref].status.SUSPENDED?
  }

  // ---- what one step of a task does to the actor side ----

  // The task moves on; it writes its record through the version its copy
  // carries; or it erases the record.
  datatype Effect = Keeps | Writes(copy: Actor, rec: Actor) | Erases

  function After(actors: Actors, ref: ActorRef, e: Effect): Actors {
    match e
    case Keeps => actors
    case Writes(_, rec) => actors[ref := rec]
    case Erases => actors - {ref}
  }

  predicate LegalWrite(actors: Actors, t: Task, copy: Actor, rec: Actor) {
    && t.ref in actors && actors[t.ref] == copy
    && RecordOk(t.ref, rec)
    && rec.version == copy.version + 1
    && Edge(copy.status, rec.status)
    && (t.Resume? ==> Detached(copy.status))
    && (rec.status.RESUMING? || rec.status.RUNNING? ==> t.Resume?)
  }

  // Task t becomes task t' and has effect e on the table.
  predicate Legal(actors: Actors, t: Task, e: Effect, t': Task) {
    && t'.ref == t.ref
    && (t'.Resume? ==> t.Resume?)
    && TaskActorOk(After(actors, t.ref, e), t')
    && (e.Writes? ==> LegalWrite(actors, t, e.copy, e.rec))
  }

  lemma WriteKeepsOthers(actors: Actors, tasks: map<TaskId, Task>, id: TaskId, copy: Actor, rec: Actor, other: TaskId)
    requires ActorInv(actors, tasks) && id in tasks && LegalWrite(actors, tasks[id], copy, rec)
    requires other in tasks && other != id
    ensures TaskActorOk(actors[tasks[id].ref := rec], tasks[other])
  {
  }

  lemma MoveSafe(actors: Actors, tasks: map<TaskId, Task>, id: TaskId, e: Effect, t': Task)
    requires ActorInv(actors, tasks) && id in tasks && Legal(actors, tasks[id], e, t')
    ensures ActorInv(After(actors, tasks[id].ref, e), tasks[id := t'])
    ensures EdgesOnly(actors, After(actors, tasks[id].ref, e))
  {
    var after := After(actors, tasks[id].ref, e);
    forall other | other in tasks && other != id
      ensures TaskActorOk(after, tasks[other])
    {
      if e.Writes? {
        WriteKeepsOthers(actors, tasks, id, e.copy, e.rec, other);
      }
    }
  }

  // ---- each step of a task is legal ----

  predicate Ready(s: Sys, t: Task) {
    TaskActorOk(s.actors, t) && (t.ref in s.actors ==> RecordOk(t.ref, s.actors[t.ref]))
  }

  predicate Does(s: Sys, id: TaskId, t: Task, q: Sys, e: Effect) {
    && id in q.tasks
    && q.tasks == s.tasks[id := q.tasks[id]]
    && q.actors == After(s.actors, t.ref, e)
    && Legal(s.actors, t, e, q.tasks[id])
  }

  // What a compare-and-swap write through a task's copy amounts to.
  lemma PutCases(actors: Actors, ref: ActorRef, copy: Actor, a: Actor, at: Time)
    requires CopyOk(actors, ref, copy) && a.Ref() == ref
    ensures match ActorPut(actors, a, Some(copy.version), at)
      case ActorStored(table, rec) =>
        && ref in actors && actors[ref] == copy
        && table == actors[ref := rec]
        && rec == a.(version := copy.version + 1, createdAt := rec.createdAt, updatedAt := rec.updatedAt)
      case ActorConflict => ref in actors && actors[ref].version != copy.version
      case ActorMissing => ref !in actors
  {
  }

  lemma FlipLegal(s: Sys, id: TaskId, ref: ActorRef, tm: Template, a: Actor, at: Time) returns (e: Effect)
    requires Ready(s, Resume(ref, Flip(tm, a)))
    ensures Does(s, id, Resume(ref, Flip(tm, a)), StepFlip(s, id, ref, tm, a, at), e)
  {
    PutCases(s.actors, ref, a, WithStatus(a, RESUMING), at);
    match ActorPut(s.actors, WithStatus(a, RESUMING), Some(a.version), at)
    case ActorStored(_, rec) => e := Writes(a, rec);
    case _ => e := Keeps;
  }

  lemma ResumeReadsLegal(s: Sys, id: TaskId, ref: ActorRef, st: ResumeStage) returns (e: Effect)
    requires Ready(s, Resume(ref, st)) && (st.Read? || st.Probe? || st.Load? || st.Reread?)
    ensures Does(s, id, Resume(ref, st),
      match st
      case Probe(tm) => StepProbe(s, id, ref, tm)
      case Load(tm) => StepLoad(s, id, ref, tm)
      case Reread(tm) => StepReread(s, id, ref, tm)
      case _ => StepRead(s, id, ref), e)
  {
    e := Keeps;
  }

  lemma LostLegal(s: Sys, id: TaskId, ref: ActorRef, asg: Assignment) returns (e: Effect)
    requires Ready(s, Resume(ref, Lost(asg)))
    ensures Does(s, id, Resume(ref, Lost(asg)), StepLost(s, id, ref, asg), e)
  {
    e := Keeps;
  }

  lemma AcquireLegal(c: Config, s: Sys, id: TaskId, ref: ActorRef, tm: Template, a: Actor, attempt: nat,
                     st: ClaimStage, ch: Choice) returns (e: Effect)
    requires Ready(s, Resume(ref, Claiming(tm, a, attempt, st))) && st.Acquire?
    ensures var q := StepClaiming(c, s, id, ref, tm, a, attempt, st, ch);
      q.Some? ==> Does(s, id, Resume(ref, Claiming(tm, a, attempt, st)), q.value, e)
  {
    e := Keeps;
  }

  lemma WaitLegal(c: Config, s: Sys, id: TaskId, ref: ActorRef, tm: Template, a: Actor, attempt: nat,
                     st: ClaimStage, ch: Choice) returns (e: Effect)
    requires Ready(s, Resume(ref, Claiming(tm, a, attempt, st))) && st.Wait?
    ensures var q := StepClaiming(c, s, id, ref, tm, a, attempt, st, ch);
      q.Some? ==> Does(s, id, Resume(ref, Claiming(tm, a, attempt, st)), q.value, e)
  {
    e := Keeps;
  }

  lemma ClaimLegal(c: Config, s: Sys, id: TaskId, ref: ActorRef, tm: Template, a: Actor, attempt: nat,
                   st: ClaimStage, ch: Choice) returns (e: Effect)
    requires Ready(s, Resume(ref, Claiming(tm, a, attempt, st))) && (st.Register? || st.Claim?)
    ensures var q := StepClaiming(c, s, id, ref, tm, a, attempt, st, ch);
      q.Some? ==> Does(s, id, Resume(ref, Claiming(tm, a, attempt, st)), q.value, e)
  {
    e := Keeps;
  }

  lemma DrainLegal(c: Config, s: Sys, id: TaskId, ref: ActorRef, tm: Template, a: Actor, attempt: nat,
                   st: ClaimStage, ch: Choice) returns (e: Effect)
    requires Ready(s, Resume(ref, Claiming(tm, a, attempt, st))) && st.Drain?
    ensures var q := StepClaiming(c, s, id, ref, tm, a, attempt, st, ch);
      q.Some? ==> Does(s, id, Resume(ref, Claiming(tm, a, attempt, st)), q.value, e)
  {
    e := Keeps;
  }

  lemma RestoreLegal(s: Sys, id: TaskId, ref: ActorRef, tm: Template, a: Actor, w: Worker, st: SetupStage, ch: Choice)
      returns (e: Effect)
    requires Ready(s, Resume(ref, Setup(tm, a, w, st))) && st.Restore?
    ensures var q := StepSetup(s, id, ref, tm, a, w, st, ch);
      q.Some? ==> Does(s, id, Resume(ref, Setup(tm, a, w, st)), q.value, e)
  {
    e := Keeps;
  }

  lemma GoldenLegal(s: Sys, id: TaskId, ref: ActorRef, tm: Template, a: Actor, w: Worker, st: SetupStage, ch: Choice)
      returns (e: Effect)
    requires Ready(s, Resume(ref, Setup(tm, a, w, st))) && st.Golden?
    ensures var q := StepSetup(s, id, ref, tm, a, w, st, ch);
      q.Some? ==> Does(s, id, Resume(ref, Setup(tm, a, w, st)), q.value, e)
  {
    e := Keeps;
  }

  lemma CaptureLegal(s: Sys, id: TaskId, ref: ActorRef, tm: Template, a: Actor, w: Worker, st: SetupStage, ch: Choice)
      returns (e: Effect)
    requires Ready(s, Resume(ref, Setup(tm, a, w, st))) && (st.Capture? || st.Check?)
    ensures var q := StepSetup(s, id, ref, tm, a, w, st, ch);
      q.Some? ==> Does(s, id, Resume(ref, Setup(tm, a, w, st)), q.value, e)
  {
    e := Keeps;
  }

  lemma FinalizeLegal(s: Sys, id: TaskId, ref: ActorRef, tm: Template, a: Actor, w: Worker, at: Time)
      returns (e: Effect)
    requires Ready(s, Resume(ref, Setup(tm, a, w, Finalize)))
    ensures Does(s, id, Resume(ref, Setup(tm, a, w, Finalize)), StepFinalize(s, id, ref, a, w, at), e)
  {
    var running := WithStatus(a, RUNNING).(assignment := Some(AssignmentFor(ref, w, at)));
    PutCases(s.actors, ref, a, running, at);
    match ActorPut(s.actors, running, Some(a.version), at)
    case ActorStored(_, rec) => e := Writes(a, rec);
    case _ => e := Keeps;
  }

  lemma StopFlipLegal(s: Sys, id: TaskId, ref: ActorRef, k: Kind, a: Actor, at: Time) returns (e: Effect)
    requires Ready(s, Stop(ref, k, StopFlip(a)))
    ensures Does(s, id, Stop(ref, k, StopFlip(a)), StepStopFlip(s, id, ref, k, a, at), e)
  {
    PutCases(s.actors, ref, a, WithStatus(a, StopTransient(k)), at);
    match ActorPut(s.actors, WithStatus(a, StopTransient(k)), Some(a.version), at)
    case ActorStored(_, rec) => e := Writes(a, rec);
    case _ => e := Keeps;
  }

  lemma StopCommitLegal(s: Sys, id: TaskId, ref: ActorRef, k: Kind, a: Actor, saved: SnapshotRef, tree: Tree, at: Time)
      returns (e: Effect)
    requires Ready(s, Stop(ref, k, StopCommit(a, saved, tree)))
    ensures Does(s, id, Stop(ref, k, StopCommit(a, saved, tree)), StepStopCommit(s, id, ref, k, a, saved, tree, at), e)
  {
    PutCases(s.actors, ref, a, Stopped(k, a, saved), at);
    match ActorPut(s.actors, Stopped(k, a, saved), Some(a.version), at)
    case ActorStored(_, rec) => e := Writes(a, rec);
    case _ => e := Keeps;
  }

  lemma FetchLegal(c: Config, s: Sys, id: TaskId, ref: ActorRef, k: Kind, a: Actor, st: HoldStage, ch: Choice)
      returns (e: Effect)
    requires Ready(s, Stop(ref, k, Holding(a, st))) && (st.Fetch? || st.Unbind?)
    ensures var q := StepHolding(c, s, id, ref, k, a, st, ch);
      q.Some? ==> Does(s, id, Stop(ref, k, Holding(a, st)), q.value, e)
  {
    e := Keeps;
  }

  lemma SaveLegal(c: Config, s: Sys, id: TaskId, ref: ActorRef, k: Kind, a: Actor, st: HoldStage, ch: Choice)
      returns (e: Effect)
    requires Ready(s, Stop(ref, k, Holding(a, st))) && (st.Save? || st.Release?)
    ensures var q := StepHolding(c, s, id, ref, k, a, st, ch);
      q.Some? ==> Does(s, id, Stop(ref, k, Holding(a, st)), q.value, e)
  {
    e := Keeps;
  }

  lemma StopReadLegal(s: Sys, id: TaskId, ref: ActorRef, k: Kind) returns (e: Effect)
    requires Ready(s, Stop(ref, k, StopRead))
    ensures Does(s, id, Stop(ref, k, StopRead), StepStopRead(s, id, ref, k), e)
  {
    e := Keeps;
  }

  lemma CrashLegal(s: Sys, id: TaskId, ref: ActorRef, st: CrashStage, ch: Choice) returns (e: Effect)
    requires Ready(s, Crash(ref, st))
    ensures Does(s, id, Crash(ref, st), StepCrash(s, id, ref, st, ch), e)
  {
    e := Keeps;
    if st.CrashCommit? {
      var crashed := WithStatus(st.actor, CRASHED).(assignment := None);
      PutCases(s.actors, ref, st.actor, crashed, ch.at);
      match ActorPut(s.actors, crashed, Some(st.actor.version), ch.at)
      case ActorStored(_, rec) => e := Writes(st.actor, rec);
      case _ =>
    }
  }

  lemma DeleteLegal(s: Sys, id: TaskId, ref: ActorRef, st: DeleteStage, ch: Choice) returns (e: Effect)
    requires Ready(s, Delete(ref, st))
    ensures Does(s, id, Delete(ref, st), StepDelete(s, id, ref, st, ch), e)
  {
    e := if st.DeleteErase? then Erases else Keeps;
    if st.DeleteFlip? {
      PutCases(s.actors, ref, st.actor, WithStatus(st.actor, DELETING), ch.at);
      match ActorPut(s.actors, WithStatus(st.actor, DELETING), Some(st.actor.version), ch.at)
      case ActorStored(_, rec) => e := Writes(st.actor, rec);
      case _ =>
    }
  }

  lemma ResumeLegal(c: Config, s: Sys, id: TaskId, ref: ActorRef, st: ResumeStage, ch: Choice) returns (e: Effect)
    requires Ready(s, Resume(ref, st))
    ensures var q := StepResume(c, s, id, ref, st, ch); q.Some? ==> Does(s, id, Resume(ref, st), q.value, e)
  {
    match st
    case Flip(tm, a) => e := FlipLegal(s, id, ref, tm, a, ch.at);
    case Claiming(tm, a, attempt, claim) =>
      if claim.Acquire? {
        e := AcquireLegal(c, s, id, ref, tm, a, attempt, claim, ch);
      } else if claim.Wait? {
        e := WaitLegal(c, s, id, ref, tm, a, attempt, claim, ch);
      } else if claim.Drain? {
        e := DrainLegal(c, s, id, ref, tm, a, attempt, claim, ch);
      } else {
        e := ClaimLegal(c, s, id, ref, tm, a, attempt, claim, ch);
      }
    case Setup(tm, a, w, setup) =>
      if setup.Finalize? {
        e := FinalizeLegal(s, id, ref, tm, a, w, ch.at);
      } else if setup.Restore? {
        e := RestoreLegal(s, id, ref, tm, a, w, setup, ch);
      } else if setup.Golden? {
        e := GoldenLegal(s, id, ref, tm, a, w, setup, ch);
      } else {
        e := CaptureLegal(s, id, ref, tm, a, w, setup, ch);
      }
    case Lost(asg) => e := LostLegal(s, id, ref, asg);
    case _ => e := ResumeReadsLegal(s, id, ref, st);
  }

  lemma StopLegal(c: Config, s: Sys, id: TaskId, ref: ActorRef, k: Kind, st: StopStage, ch: Choice) returns (e: Effect)
    requires Ready(s, Stop(ref, k, st))
    ensures var q := StepStop(c, s, id, ref, k, st, ch); q.Some? ==> Does(s, id, Stop(ref, k, st), q.value, e)
  {
    match st
    case StopRead => e := StopReadLegal(s, id, ref, k);
    case StopFlip(a) => e := StopFlipLegal(s, id, ref, k, a, ch.at);
    case Holding(a, hold) =>
      if hold.Fetch? || hold.Unbind? {
        e := FetchLegal(c, s, id, ref, k, a, hold, ch);
      } else {
        e := SaveLegal(c, s, id, ref, k, a, hold, ch);
      }
    case StopCommit(a, saved, tree) => e := StopCommitLegal(s, id, ref, k, a, saved, tree, ch.at);
  }

  lemma StepLegal(c: Config, s: Sys, id: TaskId, ch: Choice) returns (e: Effect)
    requires id in s.tasks && Ready(s, s.tasks[id])
    ensures var q := Step(c, s, id, ch); q.Some? ==> Does(s, id, s.tasks[id], q.value, e)
  {
    match s.tasks[id]
    case Resume(ref, st) => e := ResumeLegal(c, s, id, ref, st, ch);
    case Stop(ref, k, st) => e := StopLegal(c, s, id, ref, k, st, ch);
    case Crash(ref, st) => e := CrashLegal(s, id, ref, st, ch);
    case Delete(ref, st) => e := DeleteLegal(s, id, ref, st, ch);
    case Ended(_) => e := Keeps;
  }

  // ---- every event ----

  lemma CreateSafe(actors: Actors, tasks: map<TaskId, Task>, a: Actor, at: Time)
    requires ActorInv(actors, tasks) && a.status.SUSPENDED? && a.assignment.None?
    requires forall id :: id in tasks && tasks[id].ref == a.Ref() ==> tasks[id].Ended?
    ensures match ActorPut(actors, a, None, at)
      case ActorStored(table, _) => ActorInv(table, tasks) && EdgesOnly(actors, table)
      case _ => true
  {
    match ActorPut(actors, a, None, at)
    case ActorStored(table, rec) =>
      forall id | id in tasks
        ensures TaskActorOk(table, tasks[id])
      {
        if tasks[id].ref != a.Ref() {
          SameRecord(actors, table, tasks[id]);
        }
      }
    case _ =>
  }

  lemma SameRecord(actors: Actors, actors': Actors, t: Task)
    requires TaskActorOk(actors, t)
    requires t.ref in actors <==> t.ref in actors'
    requires t.ref in actors ==> actors[t.ref] == actors'[t.ref]
    ensures TaskActorOk(actors', t)
  {
  }

  lemma ActorStep(c: Config, s: Sys, e: Event)
    requires ActorInv(s.actors, s.tasks) && Apply(c, s, e).Some?
    ensures var q := Apply(c, s, e).value; ActorInv(q.actors, q.tasks) && EdgesOnly(s.actors, q.actors)
  {
    match e
    case Create(ref, templateId, selector, at) =>
      CreateSafe(s.actors, s.tasks, NewActor(ref, templateId, selector, at), at);
    case Advance(id, choice) =>
      var effect := StepLegal(c, s, id, choice);
      MoveSafe(s.actors, s.tasks, id, effect, Step(c, s, id, choice).value.tasks[id]);
    case _ =>
  }
}
