// Who holds which worker, and what the worker table always satisfies.
module WorkerSafety {
  import opened Wrappers
  import opened Collections
  import opened Model
  import opened Stores
  import opened WorkerPoolModel
  import opened OrchestratorModel
  import opened ActorSafety
  import P = PoolModel

  // ---- the worker table ----

  predicate WorkerOk(r: Registry, id: WorkerId, w: Worker) {
    && w.workerId == id && id in r.usedIds
    && w.version >= 1 && w.state.ACTIVE? && w.sandbox.Some?
  }

  predicate WarmOk(r: Registry, id: WorkerId) {
    id in r.workers && r.workers[id].assignment.None?
  }

  ghost predicate TableOk(r: Registry) {
    && (forall id :: id in r.workers ==> WorkerOk(r, id, r.workers[id]))
    && (forall id :: id in r.warm ==> WarmOk(r, id))
  }

  // A copy is never newer than the record, and equal versions mean equal records.
  predicate WorkerCopyOk(r: Registry, w: Worker) {
    && WorkerOk(r, w.workerId, w)
    && (w.workerId in r.workers ==>
          && w.version <= r.workers[w.workerId].version
          && (w.version == r.workers[w.workerId].version ==> w == r.workers[w.workerId]))
  }

  // Worker `id` is claimed for the actor.
  predicate ClaimedFor(r: Registry, ref: ActorRef, id: WorkerId) {
    && id in r.workers
    && r.workers[id].assignment.Some?
    && r.workers[id].assignment.value.actorId == ref.actorId
    && r.workers[id].assignment.value.workerId == id
  }

  predicate HeldAs(r: Registry, ref: ActorRef, w: Worker) {
    ClaimedFor(r, ref, w.workerId) && r.workers[w.workerId] == w && WorkerOk(r, w.workerId, w)
  }

  predicate ClaimStageOk(r: Registry, st: ClaimStage) {
    match st
    case Claim(w) =>
      && WorkerCopyOk(r, w) && w.IsIdle()
      && (w.workerId in r.workers && w.version == r.workers[w.workerId].version ==> w.workerId !in r.warm)
    case Drain(w) =>
      WorkerCopyOk(r, w) && (w.workerId in r.workers ==> w.version < r.workers[w.workerId].version)
    case _ => true
  }

  predicate HoldStageOk(r: Registry, ref: ActorRef, a: Actor, st: HoldStage) {
    && a.assignment.Some?
    && ClaimedFor(r, ref, a.assignment.value.workerId)
    && (!st.Fetch? ==> st.worker.workerId == a.assignment.value.workerId && HeldAs(r, ref, st.worker))
  }

  predicate TaskWorkerOk(r: Registry, t: Task) {
    match t
    case Resume(ref, Claiming(_, _, _, st)) => ClaimStageOk(r, st)
    case Resume(ref, Setup(_, _, w, _)) => HeldAs(r, ref, w)
    case Stop(ref, _, Holding(a, st)) => HoldStageOk(r, ref, a, st)
    case _ => true
  }

  // The assignment names the worker, its class and its node.
  predicate Describes(asg: Assignment, w: Worker) {
    asg.workerId == w.workerId && asg.sandboxClass == w.sandboxClass && asg.node == w.node
  }

  predicate RecordWorkerOk(r: Registry, ref: ActorRef, a: Actor) {
    a.status.RUNNING? ==>
      && a.assignment.Some? && ClaimedFor(r, ref, a.assignment.value.workerId)
      && Describes(a.assignment.value, r.workers[a.assignment.value.workerId])
  }

  // ---- holders ----

  // A claimed worker belongs to the running actor it serves, to the resume
  // setting it up, or to the suspend giving it back.
  datatype Holder = ByActor(ref: ActorRef) | ByTask(id: TaskId)

  function HeldByTask(t: Task): Option<WorkerId> {
    match t
    case Resume(_, Setup(_, _, w, _)) => Some(w.workerId)
    case Stop(_, _, Holding(a, _)) => if a.assignment.Some? then Some(a.assignment.value.workerId) else None
    case _ => None
  }

  function HeldByRecord(a: Actor): Option<WorkerId> {
    if a.status.RUNNING? && a.assignment.Some? then Some(a.assignment.value.workerId) else None
  }

  function HeldBy(actors: Actors, tasks: map<TaskId, Task>, h: Holder): Option<WorkerId> {
    match h
    case ByActor(ref) => if ref in actors then HeldByRecord(actors[ref]) else None
    case ByTask(id) => if id in tasks then HeldByTask(tasks[id]) else None
  }

  ghost predicate Exclusive(actors: Actors, tasks: map<TaskId, Task>) {
    forall h, h' :: HeldBy(actors, tasks, h).Some? && HeldBy(actors, tasks, h) == HeldBy(actors, tasks, h') ==> h == h'
  }

  ghost predicate WorkerInv(c: Config, s: Sys) {
    && TableOk(s.reg)
    && |s.reg.warm| <= c.maxWarmIdle
    && (forall id :: id in s.tasks ==> TaskWorkerOk(s.reg, s.tasks[id]))
    && (forall ref :: ref in s.actors ==> RecordWorkerOk(s.reg, ref, s.actors[ref]))
    && Exclusive(s.actors, s.tasks)
  }

  // ---- what one step does to the worker table ----

  datatype RegEffect =
    | Untouched
    | Popped(id: WorkerId)                            // taken off the warm registry
    | Added(worker: Worker)                           // registered
    | Assigned(id: WorkerId, rec: Worker)             // claimed
    | Warmed(id: WorkerId, rec: Worker, at: Time)     // released into the warm registry
    | Dropped(id: WorkerId)                           // retired

  function RegAfter(r: Registry, e: RegEffect): Registry {
    match e
    case Untouched => r
    case Popped(id) => r.(warm := r.warm - {id})
    case Added(w) => WorkerPoolModel.Register(r, w)
    case Assigned(id, rec) => r.(workers := r.workers[id := rec])
    case Warmed(id, rec, at) => r.(workers := r.workers[id := rec], warm := r.warm[id := at])
    case Dropped(id) => r.(workers := r.workers - {id}, warm := r.warm - {id})
  }

  // The worker whose record the effect changes under its holder's feet.
  function Touches(e: RegEffect): Option<WorkerId> {
    match e
    case Assigned(id, _) => Some(id)
    case Warmed(id, _, _) => Some(id)
    case Dropped(id) => Some(id)
    case _ => None
  }

  predicate NextVersion(r: Registry, id: WorkerId, rec: Worker, asg: Option<Assignment>) {
    id in r.workers && rec == r.workers[id].(assignment := asg, version := r.workers[id].version + 1)
  }

  predicate RegLegal(r: Registry, e: RegEffect) {
    match e
    case Added(w) => w.workerId !in r.usedIds && w.IsIdle() && w.version == 1
    case Assigned(id, rec) =>
      && id in r.workers && r.workers[id].assignment.None? && id !in r.warm
      && rec.assignment.Some? && NextVersion(r, id, rec, rec.assignment)
    case Warmed(id, rec, _) => NextVersion(r, id, rec, None)
    case _ => true
  }

  lemma EffectKeepsTable(r: Registry, e: RegEffect)
    requires TableOk(r) && RegLegal(r, e)
    ensures TableOk(RegAfter(r, e))
  {
  }

  lemma EffectKeepsClaimStage(r: Registry, e: RegEffect, st: ClaimStage)
    requires ClaimStageOk(r, st) && RegLegal(r, e)
    ensures ClaimStageOk(RegAfter(r, e), st)
  {
  }

  lemma EffectKeepsClaim(r: Registry, e: RegEffect, ref: ActorRef, id: WorkerId)
    requires ClaimedFor(r, ref, id) && RegLegal(r, e) && TableOk(r) && Touches(e) != Some(id)
    ensures ClaimedFor(RegAfter(r, e), ref, id) && RegAfter(r, e).workers[id] == r.workers[id]
  {
  }

  lemma EffectKeepsTask(r: Registry, e: RegEffect, t: Task)
    requires TaskWorkerOk(r, t) && RegLegal(r, e) && TableOk(r)
    requires Touches(e).Some? ==> HeldByTask(t) != Touches(e)
    ensures TaskWorkerOk(RegAfter(r, e), t)
  {
    match t
    case Resume(_, Claiming(_, _, _, st)) => EffectKeepsClaimStage(r, e, st);
    case Resume(ref, Setup(_, _, w, _)) => EffectKeepsClaim(r, e, ref, w.workerId);
    case Stop(ref, _, Holding(a, st)) => EffectKeepsClaim(r, e, ref, a.assignment.value.workerId);
    case _ =>
  }

  lemma EffectKeepsRecord(r: Registry, e: RegEffect, ref: ActorRef, a: Actor)
    requires RecordWorkerOk(r, ref, a) && RegLegal(r, e) && TableOk(r)
    requires Touches(e).Some? ==> HeldByRecord(a) != Touches(e)
    ensures RecordWorkerOk(RegAfter(r, e), ref, a)
  {
    if a.status.RUNNING? {
      EffectKeepsClaim(r, e, ref, a.assignment.value.workerId);
    }
  }

  // ---- what one step does to the holders ----

  function HeldByRef(actors: Actors, ref: ActorRef): Option<WorkerId> {
    HeldBy(actors, map[], ByActor(ref))
  }

  // A step of a task may only drop what the task or its actor holds, pass it
  // between the two, or take a worker nobody holds.
  predicate Passes(task: Option<WorkerId>, rec: Option<WorkerId>, task': Option<WorkerId>, rec': Option<WorkerId>,
                   e: RegEffect) {
    && (rec'.None? || rec' == rec || rec' == task)
    && (task'.None? || task' == task || task' == rec || (e.Assigned? && task' == Some(e.id)))
    && (rec'.Some? && rec' == task' ==> rec' == rec && task' == task)
  }

  ghost predicate NoHolder(actors: Actors, tasks: map<TaskId, Task>, id: WorkerId) {
    forall h :: HeldBy(actors, tasks, h) != Some(id)
  }

  lemma HoldersAreClaimed(c: Config, s: Sys, id: WorkerId)
    requires WorkerInv(c, s) && (id in s.reg.workers ==> s.reg.workers[id].assignment.None?)
    ensures NoHolder(s.actors, s.tasks, id)
  {
    forall h
      ensures HeldBy(s.actors, s.tasks, h) != Some(id)
    {
      match h
      case ByActor(ref) => assert ref in s.actors ==> RecordWorkerOk(s.reg, ref, s.actors[ref]);
      case ByTask(i) => assert i in s.tasks ==> TaskWorkerOk(s.reg, s.tasks[i]);
    }
  }

  lemma StaysExclusive(actors: Actors, tasks: map<TaskId, Task>, actors': Actors, id: TaskId, t': Task, e: RegEffect)
    requires Exclusive(actors, tasks) && id in tasks
    requires forall ref :: ref != tasks[id].ref ==> HeldByRef(actors', ref) == HeldByRef(actors, ref)
    requires Passes(HeldByTask(tasks[id]), HeldByRef(actors, tasks[id].ref), HeldByTask(t'),
                    HeldByRef(actors', tasks[id].ref), e)
    requires e.Assigned? ==> NoHolder(actors, tasks, e.id)
    ensures Exclusive(actors', tasks[id := t'])
  {
    var next := tasks[id := t'];
    var mine, ours := ByTask(id), ByActor(tasks[id].ref);
    forall h | h != mine && h != ours
      ensures HeldBy(actors', next, h) == HeldBy(actors, tasks, h)
    {
      match h
      case ByActor(ref) => assert HeldByRef(actors', ref) == HeldByRef(actors, ref);
      case ByTask(_) =>
    }
    assert HeldBy(actors, tasks, mine) == HeldByTask(tasks[id]);
    assert HeldBy(actors, tasks, ours) == HeldByRef(actors, tasks[id].ref);
    assert HeldBy(actors', next, mine) == HeldByTask(t');
    assert HeldBy(actors', next, ours) == HeldByRef(actors', tasks[id].ref);
    forall h, h' | HeldBy(actors', next, h).Some?
                   && HeldBy(actors', next, h) == HeldBy(actors', next, h')
      ensures h == h'
    {
      var w := HeldBy(actors', next, h);
      assert h != mine && h != ours ==> HeldBy(actors, tasks, h) == w;
      assert h' != mine && h' != ours ==> HeldBy(actors, tasks, h') == w;
      assert HeldBy(actors, tasks, mine) == w || HeldBy(actors, tasks, ours) == w || NoHolder(actors, tasks, w.value)
             || (h != mine && h != ours && h' != mine && h' != ours);
    }
  }

  predicate SameTable(r: Registry, r': Registry) {
    r'.workers == r.workers && r'.usedIds == r.usedIds && r'.warm == r.warm
  }

  // What advancing task `id` from s to q has to satisfy.
  predicate Advances(c: Config, s: Sys, id: TaskId, q: Sys, e: RegEffect)
    requires id in s.tasks
  {
    && RegLegal(s.reg, e)
    && SameTable(RegAfter(s.reg, e), q.reg)
    && (e.Warmed? ==> |s.reg.warm| < c.maxWarmIdle)
    && (e.Added? ==> e.worker.node == c.node)
    && id in q.tasks && q.tasks == s.tasks[id := q.tasks[id]]
    && TaskWorkerOk(q.reg, q.tasks[id])
    && (var ref := s.tasks[id].ref;
        ref in q.actors && (ref in s.actors ==> q.actors[ref] != s.actors[ref]) ==>
          RecordWorkerOk(q.reg, ref, q.actors[ref]))
    && Passes(HeldByTask(s.tasks[id]), HeldByRef(s.actors, s.tasks[id].ref), HeldByTask(q.tasks[id]),
              HeldByRef(q.actors, s.tasks[id].ref), e)
    && (Touches(e).Some? ==> e.Assigned? || HeldByTask(s.tasks[id]) == Touches(e))
  }

  ghost predicate OnlyRecord(actors: Actors, actors': Actors, ref: ActorRef) {
    forall r :: r != ref ==> (r in actors <==> r in actors') && (r in actors ==> actors'[r] == actors[r])
  }

  lemma OthersUntouched(c: Config, s: Sys, id: TaskId, e: RegEffect, h: Holder)
    requires WorkerInv(c, s) && id in s.tasks && RegLegal(s.reg, e) && h != ByTask(id)
    requires Touches(e).Some? ==> e.Assigned? || HeldByTask(s.tasks[id]) == Touches(e)
    ensures Touches(e).Some? ==> HeldBy(s.actors, s.tasks, h) != Touches(e)
  {
    if e.Assigned? {
      HoldersAreClaimed(c, s, e.id);
    } else {
      assert HeldBy(s.actors, s.tasks, ByTask(id)) == HeldByTask(s.tasks[id]);
    }
  }

  lemma WarmSize(m: map<WorkerId, Time>, id: WorkerId, at: Time)
    ensures |m - {id}| <= |m|
    ensures |m[id := at]| <= |m| + 1
  {
    assert (m - {id}).Keys == m.Keys - {id};
    assert m[id := at].Keys == m.Keys + {id};
  }

  lemma AdvanceKeepsTasks(c: Config, s: Sys, id: TaskId, q: Sys, e: RegEffect)
    requires WorkerInv(c, s) && id in s.tasks && Advances(c, s, id, q, e)
    ensures forall i :: i in q.tasks ==> TaskWorkerOk(q.reg, q.tasks[i])
  {
    forall i | i in s.tasks && i != id
      ensures TaskWorkerOk(q.reg, s.tasks[i])
    {
      OthersUntouched(c, s, id, e, ByTask(i));
      EffectKeepsTask(s.reg, e, s.tasks[i]);
      TaskSameTable(RegAfter(s.reg, e), q.reg, s.tasks[i]);
    }
  }

  lemma TaskSameTable(r: Registry, r': Registry, t: Task)
    requires SameTable(r, r') && TaskWorkerOk(r, t)
    ensures TaskWorkerOk(r', t)
  {
  }

  lemma AdvanceKeepsRecords(c: Config, s: Sys, id: TaskId, q: Sys, e: RegEffect)
    requires WorkerInv(c, s) && id in s.tasks && Advances(c, s, id, q, e)
    requires OnlyRecord(s.actors, q.actors, s.tasks[id].ref)
    ensures forall ref :: ref in q.actors ==> RecordWorkerOk(q.reg, ref, q.actors[ref])
  {
    forall ref | ref in q.actors && ref in s.actors && q.actors[ref] == s.actors[ref]
      ensures RecordWorkerOk(q.reg, ref, q.actors[ref])
    {
      OthersUntouched(c, s, id, e, ByActor(ref));
      EffectKeepsRecord(s.reg, e, ref, s.actors[ref]);
    }
  }

  lemma WorkerMove(c: Config, s: Sys, id: TaskId, q: Sys, e: RegEffect)
    requires WorkerInv(c, s) && id in s.tasks && Advances(c, s, id, q, e)
    requires OnlyRecord(s.actors, q.actors, s.tasks[id].ref)
    ensures WorkerInv(c, q)
  {
    AdvanceKeepsTasks(c, s, id, q, e);
    AdvanceKeepsRecords(c, s, id, q, e);
    EffectKeepsTable(s.reg, e);
    if e.Assigned? {
      HoldersAreClaimed(c, s, e.id);
    }
    StaysExclusive(s.actors, s.tasks, q.actors, id, q.tasks[id], e);
    match e
    case Popped(w) => WarmSize(s.reg.warm, w, 0);
    case Dropped(w) => WarmSize(s.reg.warm, w, 0);
    case Warmed(w, _, at) => WarmSize(s.reg.warm, w, at);
    case _ =>
  }

  // A step that leaves the actor and worker tables alone.
  predicate Quiet(s: Sys, id: TaskId, q: Sys)
    requires id in s.tasks
  {
    && q.actors == s.actors
    && SameTable(s.reg, q.reg)
    && id in q.tasks && q.tasks == s.tasks[id := q.tasks[id]]
    && TaskWorkerOk(s.reg, q.tasks[id])
    && (HeldByTask(q.tasks[id]).None? || HeldByTask(q.tasks[id]) == HeldByTask(s.tasks[id]))
  }

  lemma QuietAdvances(c: Config, s: Sys, id: TaskId, q: Sys)
    requires id in s.tasks && Quiet(s, id, q)
    ensures Advances(c, s, id, q, Untouched)
  {
    TaskSameTable(s.reg, q.reg, q.tasks[id]);
  }

  // ---- each step ----

  ghost predicate ReadyToStep(s: Sys, id: TaskId, t: Task) {
    && id in s.tasks && s.tasks[id] == t
    && Ready(s, t)
    && TaskWorkerOk(s.reg, t)
    && (t.ref in s.actors ==> RecordWorkerOk(s.reg, t.ref, s.actors[t.ref]))
    && TableOk(s.reg)
  }

  lemma ReadsQuiet(c: Config, s: Sys, id: TaskId, ref: ActorRef, st: ResumeStage)
    requires ReadyToStep(s, id, Resume(ref, st)) && (st.Read? || st.Probe? || st.Load? || st.Reread?)
    ensures Quiet(s, id,
      match st
      case Probe(tm) => StepProbe(s, id, ref, tm)
      case Load(tm) => StepLoad(s, id, ref, tm)
      case Reread(tm) => StepReread(s, id, ref, tm)
      case _ => StepRead(s, id, ref))
  {
  }

  lemma LostQuiet(c: Config, s: Sys, id: TaskId, ref: ActorRef, asg: Assignment)
    requires ReadyToStep(s, id, Resume(ref, Lost(asg)))
    ensures Quiet(s, id, StepLost(s, id, ref, asg))
  {
  }

  lemma FlipAdvance(c: Config, s: Sys, id: TaskId, ref: ActorRef, tm: Template, a: Actor, at: Time)
    requires ReadyToStep(s, id, Resume(ref, Flip(tm, a)))
    ensures Advances(c, s, id, StepFlip(s, id, ref, tm, a, at), Untouched)
  {
    PutCases(s.actors, ref, a, WithStatus(a, RESUMING), at);
  }

  lemma AcquireAdvance(c: Config, s: Sys, id: TaskId, ref: ActorRef, tm: Template, a: Actor, attempt: nat,
                       pick: WorkerId) returns (e: RegEffect)
    requires ReadyToStep(s, id, Resume(ref, Claiming(tm, a, attempt, Acquire)))
    ensures var q := StepAcquire(c, s, id, ref, tm, a, attempt, pick); q.Some? ==> Advances(c, s, id, q.value, e)
    ensures var picked := attempt < MAX_CLAIM_RETRIES && Eligible(s.reg.workers, ConstraintsFor(tm, a), pick);
      e == if picked then Popped(pick) else Untouched
  {
    var picked := attempt < MAX_CLAIM_RETRIES && Eligible(s.reg.workers, ConstraintsFor(tm, a), pick);
    e := if picked then Popped(pick) else Untouched;
  }

  lemma WaitQuiet(c: Config, s: Sys, id: TaskId, ref: ActorRef, tm: Template, a: Actor, attempt: nat)
    requires ReadyToStep(s, id, Resume(ref, Claiming(tm, a, attempt, Wait)))
    ensures var q := StepWait(c, s, id, ref, tm, a, attempt); q.Some? ==> Quiet(s, id, q.value)
  {
  }

  lemma RegisterAdvance(c: Config, s: Sys, id: TaskId, ref: ActorRef, tm: Template, a: Actor, attempt: nat,
                        sb: P.Sandbox, unused: WorkerId, kind: string)
    requires ReadyToStep(s, id, Resume(ref, Claiming(tm, a, attempt, ClaimStage.Register(sb))))
    ensures var q := StepRegister(c, s, id, ref, tm, a, attempt, sb, unused, kind);
      q.Some? ==> Advances(c, s, id, q.value, Added(NewWorker(c, unused, kind, sb)))
  {
  }

  lemma ClaimAdvance(c: Config, s: Sys, id: TaskId, ref: ActorRef, tm: Template, a: Actor, attempt: nat, w: Worker,
                     at: Time) returns (e: RegEffect)
    requires ReadyToStep(s, id, Resume(ref, Claiming(tm, a, attempt, Claim(w))))
    ensures Advances(c, s, id, StepClaim(s, id, ref, tm, a, attempt, w, at), e)
    ensures e.Assigned? || e.Untouched?
  {
    match WorkerClaim(s.reg.workers, w.workerId, AssignmentFor(ref, w, at), w.version)
    case WorkerStored(_, rec) => e := Assigned(w.workerId, rec);
    case _ => e := Untouched;
  }

  // The loser of a claim is refused, or finds the worker gone.
  lemma LoserReleasesNothing(c: Config, r: Registry, w: Worker, alive: bool)
    requires ClaimStageOk(r, Drain(w))
    ensures ReleaseWorker(c, r, w, true, alive) == if w.workerId in r.workers then Refused else Released(r)
  {
  }

  lemma DrainQuiet(c: Config, s: Sys, id: TaskId, ref: ActorRef, tm: Template, a: Actor, attempt: nat, w: Worker,
                     alive: bool)
    requires ReadyToStep(s, id, Resume(ref, Claiming(tm, a, attempt, Drain(w))))
    ensures Quiet(s, id, StepDrain(c, s, id, ref, tm, a, attempt, w, alive))
  {
    LoserReleasesNothing(c, s.reg, w, alive);
    if w.workerId in s.reg.workers {
      assert StepDrain(c, s, id, ref, tm, a, attempt, w, alive) == End(s, id, ref);
    } else {
      assert StepDrain(c, s, id, ref, tm, a, attempt, w, alive)
          == GotoResume(s, id, ref, Claiming(tm, a, attempt + 1, Acquire));
    }
  }

  lemma RestoreQuiet(c: Config, s: Sys, id: TaskId, ref: ActorRef, tm: Template, a: Actor, w: Worker, st: SetupStage,
                     ch: Choice)
    requires ReadyToStep(s, id, Resume(ref, Setup(tm, a, w, st))) && st.Restore?
    ensures var q := StepSetup(s, id, ref, tm, a, w, st, ch); q.Some? ==> Quiet(s, id, q.value)
  {
  }

  lemma GoldenQuiet(c: Config, s: Sys, id: TaskId, ref: ActorRef, tm: Template, a: Actor, w: Worker, st: SetupStage,
                     ch: Choice)
    requires ReadyToStep(s, id, Resume(ref, Setup(tm, a, w, st))) && st.Golden?
    ensures var q := StepSetup(s, id, ref, tm, a, w, st, ch); q.Some? ==> Quiet(s, id, q.value)
  {
  }

  lemma CaptureQuiet(c: Config, s: Sys, id: TaskId, ref: ActorRef, tm: Template, a: Actor, w: Worker, st: SetupStage,
                       ch: Choice)
    requires ReadyToStep(s, id, Resume(ref, Setup(tm, a, w, st))) && st.Capture?
    ensures var q := StepSetup(s, id, ref, tm, a, w, st, ch); q.Some? ==> Quiet(s, id, q.value)
  {
  }

  lemma CheckQuiet(c: Config, s: Sys, id: TaskId, ref: ActorRef, tm: Template, a: Actor, w: Worker, st: SetupStage,
                       ch: Choice)
    requires ReadyToStep(s, id, Resume(ref, Setup(tm, a, w, st))) && st.Check?
    ensures var q := StepSetup(s, id, ref, tm, a, w, st, ch); q.Some? ==> Quiet(s, id, q.value)
  {
  }

  lemma FinalizeAdvance(c: Config, s: Sys, id: TaskId, ref: ActorRef, tm: Template, a: Actor, w: Worker, at: Time)
    requires ReadyToStep(s, id, Resume(ref, Setup(tm, a, w, Finalize)))
    ensures Advances(c, s, id, StepFinalize(s, id, ref, a, w, at), Untouched)
  {
    PutCases(s.actors, ref, a, WithStatus(a, RUNNING).(assignment := Some(AssignmentFor(ref, w, at))), at);
  }

  lemma StopReadQuiet(c: Config, s: Sys, id: TaskId, ref: ActorRef, k: Kind)
    requires ReadyToStep(s, id, Stop(ref, k, StopRead))
    ensures Quiet(s, id, StepStopRead(s, id, ref, k))
  {
  }

  lemma StopFlipAdvance(c: Config, s: Sys, id: TaskId, ref: ActorRef, k: Kind, a: Actor, at: Time)
    requires ReadyToStep(s, id, Stop(ref, k, StopFlip(a)))
    ensures Advances(c, s, id, StepStopFlip(s, id, ref, k, a, at), Untouched)
  {
    PutCases(s.actors, ref, a, WithStatus(a, StopTransient(k)), at);
  }

  lemma HoldingQuiet(c: Config, s: Sys, id: TaskId, ref: ActorRef, k: Kind, a: Actor, st: HoldStage, ch: Choice)
    requires ReadyToStep(s, id, Stop(ref, k, Holding(a, st))) && !st.Release?
    ensures var q := StepHolding(c, s, id, ref, k, a, st, ch); q.Some? ==> Quiet(s, id, q.value)
  {
  }

  lemma RetireDrops(c: Config, r: Registry, id: WorkerId, rec: Worker)
    requires id in r.workers && rec.workerId == id
    ensures SameTable(RegAfter(r, Dropped(id)), Retire(c, r.(workers := r.workers[id := rec]), rec))
  {
  }

  // The holder's release always goes through.
  lemma HolderReleases(c: Config, r: Registry, ref: ActorRef, w: Worker, alive: bool) returns (e: RegEffect)
    requires HeldAs(r, ref, w)
    ensures ReleaseWorker(c, r, w, false, alive).Released?
    ensures SameTable(RegAfter(r, e), ReleaseWorker(c, r, w, false, alive).reg) && RegLegal(r, e)
    ensures Touches(e) == Some(w.workerId) && !e.Assigned?
    ensures e.Warmed? ==> |r.warm| < c.maxWarmIdle
    ensures ReleaseWorker(c, r, w, false, alive).reg.pool
         == if e.Dropped? then ReturnSandbox(c, r.pool, w.sandbox.value) else r.pool
  {
    var rec := WorkerRelease(r.workers, w.workerId, w.version).worker;
    if !alive || |r.warm| >= c.maxWarmIdle {
      e := Dropped(w.workerId);
      RetireDrops(c, r, w.workerId, rec);
    } else {
      e := Warmed(w.workerId, rec, r.pool.now);
    }
  }

  lemma ReleaseAdvance(c: Config, s: Sys, id: TaskId, ref: ActorRef, k: Kind, a: Actor, w: Worker, saved: SnapshotRef,
                       tree: Tree, alive: bool) returns (e: RegEffect)
    requires ReadyToStep(s, id, Stop(ref, k, Holding(a, HoldStage.Release(w, saved, tree))))
    ensures w.sandbox.Some? && w.workerId in s.reg.workers && s.reg.workers[w.workerId] == w
    ensures Advances(c, s, id, StepRelease(c, s, id, ref, k, a, w, saved, tree, alive), e)
    ensures e.Warmed? || (e.Dropped? && e.id == w.workerId)
    ensures StepRelease(c, s, id, ref, k, a, w, saved, tree, alive).reg.pool
         == if e.Dropped? then ReturnSandbox(c, s.reg.pool, w.sandbox.value) else s.reg.pool
  {
    e := HolderReleases(c, s.reg, ref, w, alive);
    var q := StepRelease(c, s, id, ref, k, a, w, saved, tree, alive);
    assert q == GotoStop(s.(reg := q.reg), id, ref, k, StopCommit(a, saved, tree));
    assert HeldByTask(q.tasks[id]).None? && TaskWorkerOk(q.reg, q.tasks[id]);
  }

  lemma StopCommitAdvance(c: Config, s: Sys, id: TaskId, ref: ActorRef, k: Kind, a: Actor, saved: SnapshotRef,
                          tree: Tree, at: Time)
    requires ReadyToStep(s, id, Stop(ref, k, StopCommit(a, saved, tree)))
    ensures Advances(c, s, id, StepStopCommit(s, id, ref, k, a, saved, tree, at), Untouched)
  {
  }

  lemma CrashAdvance(c: Config, s: Sys, id: TaskId, ref: ActorRef, st: CrashStage, ch: Choice)
    requires ReadyToStep(s, id, Crash(ref, st))
    ensures Advances(c, s, id, StepCrash(s, id, ref, st, ch), Untouched)
  {
  }

  lemma DeleteFlipAdvance(c: Config, s: Sys, id: TaskId, ref: ActorRef, st: DeleteStage, ch: Choice)
    requires ReadyToStep(s, id, Delete(ref, st)) && st.DeleteFlip?
    ensures Advances(c, s, id, StepDelete(s, id, ref, st, ch), Untouched)
  {
  }

  lemma DeleteAdvance(c: Config, s: Sys, id: TaskId, ref: ActorRef, st: DeleteStage, ch: Choice)
    requires ReadyToStep(s, id, Delete(ref, st)) && !st.DeleteFlip?
    ensures Advances(c, s, id, StepDelete(s, id, ref, st, ch), Untouched)
  {
  }

  // ---- every step of a task ----

  lemma ClaimingAdvance(c: Config, s: Sys, id: TaskId, ref: ActorRef, tm: Template, a: Actor, attempt: nat,
                        st: ClaimStage, ch: Choice) returns (e: RegEffect)
    requires ReadyToStep(s, id, Resume(ref, Claiming(tm, a, attempt, st)))
    ensures var q := StepClaiming(c, s, id, ref, tm, a, attempt, st, ch); q.Some? ==> Advances(c, s, id, q.value, e)
  {
    e := Untouched;
    var q := StepClaiming(c, s, id, ref, tm, a, attempt, st, ch);
    match st
    case Acquire =>
      e := AcquireAdvance(c, s, id, ref, tm, a, attempt, ch.pick);
    case Wait =>
      WaitQuiet(c, s, id, ref, tm, a, attempt);
      if q.Some? {
        QuietAdvances(c, s, id, q.value);
      }
    case Register(sb) =>
      e := Added(NewWorker(c, ch.worker, ch.kind, sb));
      RegisterAdvance(c, s, id, ref, tm, a, attempt, sb, ch.worker, ch.kind);
    case Claim(w) => e := ClaimAdvance(c, s, id, ref, tm, a, attempt, w, ch.at);
    case Drain(w) =>
      DrainQuiet(c, s, id, ref, tm, a, attempt, w, ch.alive);
      QuietAdvances(c, s, id, q.value);
  }

  lemma SetupAdvance(c: Config, s: Sys, id: TaskId, ref: ActorRef, tm: Template, a: Actor, w: Worker, st: SetupStage,
                     ch: Choice)
    requires ReadyToStep(s, id, Resume(ref, Setup(tm, a, w, st)))
    ensures var q := StepSetup(s, id, ref, tm, a, w, st, ch); q.Some? ==> Advances(c, s, id, q.value, Untouched)
  {
    if st.Finalize? {
      FinalizeAdvance(c, s, id, ref, tm, a, w, ch.at);
    } else {
      match st {
        case Restore => RestoreQuiet(c, s, id, ref, tm, a, w, st, ch);
        case Golden(_) => GoldenQuiet(c, s, id, ref, tm, a, w, st, ch);
        case Capture => CaptureQuiet(c, s, id, ref, tm, a, w, st, ch);
        case Check => CheckQuiet(c, s, id, ref, tm, a, w, st, ch);
      }
      var q := StepSetup(s, id, ref, tm, a, w, st, ch);
      if q.Some? {
        QuietAdvances(c, s, id, q.value);
      }
    }
  }

  lemma OutsideAdvance(c: Config, s: Sys, id: TaskId, ref: ActorRef, st: ResumeStage, ch: Choice)
    requires ReadyToStep(s, id, Resume(ref, st)) && !st.Claiming? && !st.Setup?
    ensures Advances(c, s, id, StepResume(c, s, id, ref, st, ch).value, Untouched)
  {
    if st.Flip? {
      FlipAdvance(c, s, id, ref, st.template, st.actor, ch.at);
    } else {
      if st.Lost? {
        LostQuiet(c, s, id, ref, st.assignment);
      } else {
        ReadsQuiet(c, s, id, ref, st);
      }
      QuietAdvances(c, s, id, StepResume(c, s, id, ref, st, ch).value);
    }
  }

  lemma ResumeAdvance(c: Config, s: Sys, id: TaskId, ref: ActorRef, st: ResumeStage, ch: Choice) returns (e: RegEffect)
    requires ReadyToStep(s, id, Resume(ref, st))
    ensures var q := StepResume(c, s, id, ref, st, ch); q.Some? ==> Advances(c, s, id, q.value, e)
  {
    e := Untouched;
    match st
    case Claiming(tm, a, attempt, claim) => e := ClaimingAdvance(c, s, id, ref, tm, a, attempt, claim, ch);
    case Setup(tm, a, w, setup) => SetupAdvance(c, s, id, ref, tm, a, w, setup, ch);
    case _ => OutsideAdvance(c, s, id, ref, st, ch);
  }

  lemma KeepingAdvance(c: Config, s: Sys, id: TaskId, ref: ActorRef, k: Kind, st: StopStage, ch: Choice)
    requires ReadyToStep(s, id, Stop(ref, k, st)) && (st.Holding? ==> !st.hold.Release?)
    ensures var q := StepStop(c, s, id, ref, k, st, ch); q.Some? ==> Advances(c, s, id, q.value, Untouched)
  {
    match st
    case StopRead =>
      StopReadQuiet(c, s, id, ref, k);
      QuietAdvances(c, s, id, StepStopRead(s, id, ref, k));
    case StopFlip(a) => StopFlipAdvance(c, s, id, ref, k, a, ch.at);
    case Holding(a, hold) =>
      HoldingQuiet(c, s, id, ref, k, a, hold, ch);
      var q := StepHolding(c, s, id, ref, k, a, hold, ch);
      if q.Some? {
        QuietAdvances(c, s, id, q.value);
      }
    case StopCommit(a, saved, tree) => StopCommitAdvance(c, s, id, ref, k, a, saved, tree, ch.at);
  }

  lemma StopAdvance(c: Config, s: Sys, id: TaskId, ref: ActorRef, k: Kind, st: StopStage, ch: Choice)
      returns (e: RegEffect)
    requires ReadyToStep(s, id, Stop(ref, k, st))
    ensures var q := StepStop(c, s, id, ref, k, st, ch); q.Some? ==> Advances(c, s, id, q.value, e)
  {
    e := Untouched;
    if st.Holding? && st.hold.Release? {
      e := ReleaseAdvance(c, s, id, ref, k, st.actor, st.hold.worker, st.hold.saved, st.hold.tree, ch.alive);
    } else {
      KeepingAdvance(c, s, id, ref, k, st, ch);
    }
  }

  lemma EndingAdvance(c: Config, s: Sys, id: TaskId, ch: Choice)
    requires id in s.tasks && ReadyToStep(s, id, s.tasks[id]) && (s.tasks[id].Crash? || s.tasks[id].Delete?)
    ensures Advances(c, s, id, Step(c, s, id, ch).value, Untouched)
  {
    match s.tasks[id]
    case Crash(ref, st) => CrashAdvance(c, s, id, ref, st, ch);
    case Delete(ref, st) =>
      if st.DeleteFlip? {
        DeleteFlipAdvance(c, s, id, ref, st, ch);
      } else {
        DeleteAdvance(c, s, id, ref, st, ch);
      }
  }

  lemma StepAdvances(c: Config, s: Sys, id: TaskId, ch: Choice) returns (e: RegEffect)
    requires id in s.tasks && ReadyToStep(s, id, s.tasks[id])
    ensures var q := Step(c, s, id, ch); q.Some? ==> Advances(c, s, id, q.value, e)
  {
    e := Untouched;
    match s.tasks[id]
    case Resume(ref, st) => e := ResumeAdvance(c, s, id, ref, st, ch);
    case Stop(ref, k, st) => e := StopAdvance(c, s, id, ref, k, st, ch);
    case Ended(_) =>
    case _ => EndingAdvance(c, s, id, ch);
  }

  lemma AfterOnlyRecord(actors: Actors, ref: ActorRef, e: Effect)
    ensures OnlyRecord(actors, After(actors, ref, e), ref)
  {
  }

  lemma AdvanceSafe(c: Config, s: Sys, id: TaskId, ch: Choice)
    requires ActorInv(s.actors, s.tasks) && WorkerInv(c, s) && id in s.tasks && Step(c, s, id, ch).Some?
    ensures WorkerInv(c, Step(c, s, id, ch).value)
  {
    var q := Step(c, s, id, ch).value;
    var ea := StepLegal(c, s, id, ch);
    AfterOnlyRecord(s.actors, s.tasks[id].ref, ea);
    var e := StepAdvances(c, s, id, ch);
    WorkerMove(c, s, id, q, e);
  }

  // ---- the warm-idle sweeper ----

  lemma {:induction false} RetireAllTable(c: Config, r: Registry, ids: seq<WorkerId>)
    requires forall id :: id in r.workers ==> r.workers[id].workerId == id
    ensures var r' := RetireAll(c, r, ids);
      && r'.usedIds == r.usedIds
      && r'.workers == r.workers - (set id | id in ids)
      && (forall id :: id in r'.warm ==> id in r.warm && r'.warm[id] == r.warm[id])
      && (forall id :: id in r.warm && id !in ids ==> id in r'.warm)
  {
    if ids == [] {
    } else {
      var front, id := ids[..|ids| - 1], ids[|ids| - 1];
      RetireAllTable(c, r, front);
      assert forall i :: i in ids <==> i in front || i == id;
    }
  }

  // Only unclaimed workers leave the table, and the registry shrinks.
  ghost predicate Shrinks(r: Registry, r': Registry) {
    && r'.usedIds == r.usedIds
    && (forall id :: id in r'.workers ==> id in r.workers && r'.workers[id] == r.workers[id])
    && (forall id :: id in r.workers && id !in r'.workers ==> r.workers[id].assignment.None?)
    && r'.warm.Keys <= r.warm.Keys
    && r'.warm.Keys <= r'.workers.Keys
  }

  lemma ShrinkKeepsTask(r: Registry, r': Registry, t: Task)
    requires Shrinks(r, r') && TaskWorkerOk(r, t)
    ensures TaskWorkerOk(r', t)
  {
  }

  lemma ShrinkSafe(c: Config, s: Sys, r': Registry)
    requires WorkerInv(c, s) && Shrinks(s.reg, r')
    ensures WorkerInv(c, s.(reg := r'))
  {
    forall id | id in s.tasks
      ensures TaskWorkerOk(r', s.tasks[id])
    {
      ShrinkKeepsTask(s.reg, r', s.tasks[id]);
    }
    SubsetCardinality(r'.warm.Keys, s.reg.warm.Keys);
  }

  lemma SweepShrinks(c: Config, r: Registry, order: seq<WorkerId>)
    requires TableOk(r) && IsSweepOrder(c, r, order)
    ensures Shrinks(r, WorkerPoolModel.SweepWarm(c, r, order))
    ensures WorkerPoolModel.SweepWarm(c, r, order).workers == r.workers - (set id | id in order)
  {
    RetireAllTable(c, r.(warm := r.warm - (set id | id in order)), order);
  }

  lemma SweepSafe(c: Config, s: Sys, order: seq<WorkerId>)
    requires WorkerInv(c, s) && IsSweepOrder(c, s.reg, order)
    ensures WorkerInv(c, s.(reg := WorkerPoolModel.SweepWarm(c, s.reg, order)))
    ensures WorkerPoolModel.SweepWarm(c, s.reg, order).workers == s.reg.workers - (set id | id in order)
  {
    SweepShrinks(c, s.reg, order);
    ShrinkSafe(c, s, WorkerPoolModel.SweepWarm(c, s.reg, order));
  }

  // ---- every event ----

  lemma CreateKeepsWorkers(c: Config, s: Sys, a: Actor, at: Time)
    requires WorkerInv(c, s) && a.status.SUSPENDED?
    ensures match ActorPut(s.actors, a, None, at)
      case ActorStored(table, _) => WorkerInv(c, s.(actors := table))
      case _ => true
  {
    match ActorPut(s.actors, a, None, at)
    case ActorStored(table, _) =>
      forall h
        ensures HeldBy(table, s.tasks, h) == HeldBy(s.actors, s.tasks, h)
      {
      }
    case _ =>
  }

  lemma BeginKeepsWorkers(c: Config, s: Sys, id: TaskId, t: Task)
    requires WorkerInv(c, s) && id !in s.tasks && Starting(t)
    ensures WorkerInv(c, Goto(s, id, t))
  {
    var q := Goto(s, id, t);
    forall h
      ensures HeldBy(q.actors, q.tasks, h) == HeldBy(s.actors, s.tasks, h)
    {
      match h
      case ByActor(_) =>
      case ByTask(_) =>
    }
  }

  lemma PoolKeepsWorkers(c: Config, s: Sys, pool: P.Pool)
    requires WorkerInv(c, s)
    ensures WorkerInv(c, s.(reg := s.reg.(pool := pool)))
  {
    forall id | id in s.tasks
      ensures TaskWorkerOk(s.reg.(pool := pool), s.tasks[id])
    {
      TaskSameTable(s.reg, s.reg.(pool := pool), s.tasks[id]);
    }
  }

  lemma WorkerStep(c: Config, s: Sys, e: Event)
    requires ActorInv(s.actors, s.tasks) && WorkerInv(c, s) && Apply(c, s, e).Some?
    ensures WorkerInv(c, Apply(c, s, e).value)
  {
    match e
    case Create(ref, templateId, selector, at) => CreateKeepsWorkers(c, s, NewActor(ref, templateId, selector, at), at);
    case Begin(id, task) => BeginKeepsWorkers(c, s, id, task);
    case Advance(id, choice) => AdvanceSafe(c, s, id, choice);
    case PoolStep(event) => PoolKeepsWorkers(c, s, P.Apply(c.pool, s.reg.pool, event).value);
    case SweepWarm(order) => SweepSafe(c, s, order);
    case _ =>
  }
}
