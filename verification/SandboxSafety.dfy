// The worker pool as the sole user of the sandbox pool: every sandbox handed
// out belongs to exactly one worker record, or to the resume registering it.
module SandboxSafety {
  import opened Wrappers
  import opened Collections
  import opened Model
  import opened Stores
  import opened WorkerPoolModel
  import opened OrchestratorModel
  import opened ActorSafety
  import opened WorkerSafety
  import P = PoolModel
  import PS = PoolSafety

  datatype Owner = ByWorker(id: WorkerId) | ByRegistrar(task: TaskId)

  function SandboxOfWorker(workers: Workers, id: WorkerId): Option<P.Sandbox> {
    if id in workers then workers[id].sandbox else None
  }

  function SandboxOfTask(t: Task): Option<P.Sandbox> {
    match t
    case Resume(_, Claiming(_, _, _, Register(sb))) => Some(sb)
    case _ => None
  }

  function OwnedBy(workers: Workers, tasks: map<TaskId, Task>, o: Owner): Option<P.Sandbox> {
    match o
    case ByWorker(id) => SandboxOfWorker(workers, id)
    case ByRegistrar(id) => if id in tasks then SandboxOfTask(tasks[id]) else None
  }

  // No sandbox has two owners, and the owned ones are exactly those handed out.
  ghost predicate OwnersOk(workers: Workers, tasks: map<TaskId, Task>, held: set<P.Sandbox>) {
    && (forall o, o' :: OwnedBy(workers, tasks, o).Some? && OwnedBy(workers, tasks, o) == OwnedBy(workers, tasks, o')
          ==> o == o')
    && (forall o :: OwnedBy(workers, tasks, o).Some? ==> OwnedBy(workers, tasks, o).value in held)
    && (forall sb :: sb in held ==> exists o :: OwnedBy(workers, tasks, o) == Some(sb))
  }

  // The worker pool is the pool's only caller.
  ghost predicate Ours(p: P.Pool) {
    forall sb :: sb in p.held ==> p.held[sb] == OWNER
  }

  ghost predicate SandboxInv(c: Config, s: Sys) {
    && PS.Inv(c.pool, s.reg.pool)
    && OwnersOk(s.reg.workers, s.tasks, s.reg.pool.held.Keys)
    && Ours(s.reg.pool)
  }

  // ---- how ownership moves ----

  lemma OwnersSame(workers: Workers, tasks: map<TaskId, Task>, held: set<P.Sandbox>, workers': Workers,
                   tasks': map<TaskId, Task>)
    requires OwnersOk(workers, tasks, held)
    requires forall o :: OwnedBy(workers', tasks', o) == OwnedBy(workers, tasks, o)
    ensures OwnersOk(workers', tasks', held)
  {
  }

  lemma OwnerGains(workers: Workers, tasks: map<TaskId, Task>, held: set<P.Sandbox>, workers': Workers,
                   tasks': map<TaskId, Task>, owner: Owner, sb: P.Sandbox)
    requires OwnersOk(workers, tasks, held) && sb !in held
    requires forall o :: o != owner ==> OwnedBy(workers', tasks', o) == OwnedBy(workers, tasks, o)
    requires OwnedBy(workers, tasks, owner).None? && OwnedBy(workers', tasks', owner) == Some(sb)
    ensures OwnersOk(workers', tasks', held + {sb})
  {
    forall x | x in held + {sb}
      ensures exists o :: OwnedBy(workers', tasks', o) == Some(x)
    {
      if x != sb {
        var o :| OwnedBy(workers, tasks, o) == Some(x);
        assert OwnedBy(workers', tasks', o) == Some(x);
      }
    }
  }

  lemma OwnerShifts(workers: Workers, tasks: map<TaskId, Task>, held: set<P.Sandbox>, workers': Workers,
                    tasks': map<TaskId, Task>, from: Owner, to: Owner)
    requires OwnersOk(workers, tasks, held) && from != to
    requires forall o :: o != from && o != to ==> OwnedBy(workers', tasks', o) == OwnedBy(workers, tasks, o)
    requires OwnedBy(workers, tasks, to).None? && OwnedBy(workers', tasks', to) == OwnedBy(workers, tasks, from)
    requires OwnedBy(workers', tasks', from).None?
    ensures OwnersOk(workers', tasks', held)
  {
    forall x | x in held
      ensures exists o :: OwnedBy(workers', tasks', o) == Some(x)
    {
      var o :| OwnedBy(workers, tasks, o) == Some(x);
      assert OwnedBy(workers', tasks', if o == from then to else o) == Some(x);
    }
  }

  lemma OwnerLoses(workers: Workers, tasks: map<TaskId, Task>, held: set<P.Sandbox>, workers': Workers,
                   tasks': map<TaskId, Task>, owner: Owner, sb: P.Sandbox)
    requires OwnersOk(workers, tasks, held)
    requires forall o :: o != owner ==> OwnedBy(workers', tasks', o) == OwnedBy(workers, tasks, o)
    requires OwnedBy(workers, tasks, owner) == Some(sb) && OwnedBy(workers', tasks', owner).None?
    ensures OwnersOk(workers', tasks', held - {sb})
  {
    forall x | x in held - {sb}
      ensures exists o :: OwnedBy(workers', tasks', o) == Some(x)
    {
      var o :| OwnedBy(workers, tasks, o) == Some(x);
      assert OwnedBy(workers', tasks', o) == Some(x);
    }
  }

  // ---- the sandbox pool underneath ----

  lemma ReturnSafe(c: Config, p: P.Pool, sb: P.Sandbox)
    requires PS.Inv(c.pool, p) && Ours(p) && sb in p.held
    ensures PS.Inv(c.pool, ReturnSandbox(c, p, sb)) && Ours(ReturnSandbox(c, p, sb))
    ensures ReturnSandbox(c, p, sb).held == p.held - {sb}
    ensures ReturnSandbox(c, p, sb).now == p.now && ReturnSandbox(c, p, sb).ops == p.ops
  {
    PS.StepSafe(c.pool, p, P.ReleaseBy(OWNER, sb, false), ReturnSandbox(c, p, sb));
  }

  lemma TakeSafe(c: Config, p: P.Pool, id: TaskId)
    requires PS.Inv(c.pool, p) && id in p.ops && p.ops[id].AcqDone?
    ensures PS.Inv(c.pool, P.HandOut(p, id, p.ops[id].sb, OWNER)) && p.ops[id].sb !in p.held
  {
    PS.StepSafe(c.pool, p, P.Take(id, OWNER), P.HandOut(p, id, p.ops[id].sb, OWNER));
    assert PS.At(p, p.ops[id].sb, PS.Hand(id));
    assert !PS.At(p, p.ops[id].sb, PS.Held);
  }

  lemma RaiseSafe(c: Config, p: P.Pool, id: TaskId)
    requires PS.Inv(c.pool, p) && id in p.ops && p.ops[id].AcqRaised?
    ensures PS.Inv(c.pool, P.Finish(p, id))
  {
    PS.StepSafe(c.pool, p, P.Raise(id), P.Finish(p, id));
  }

  // ---- steps that move no sandbox ----

  predicate Plain(s: Sys, id: TaskId, q: Sys) {
    q.reg.pool == s.reg.pool && id in q.tasks && SandboxOfTask(q.tasks[id]).None?
  }

  lemma ResumePlain(c: Config, s: Sys, id: TaskId, ref: ActorRef, st: ResumeStage, ch: Choice)
    requires !st.Claiming? && !st.Setup?
    ensures Plain(s, id, StepResume(c, s, id, ref, st, ch).value)
  {
  }

  lemma ClaimPlain(c: Config, s: Sys, id: TaskId, ref: ActorRef, tm: Template, a: Actor, attempt: nat,
                   st: ClaimStage, ch: Choice)
    requires st.Claim?
    ensures Plain(s, id, StepClaiming(c, s, id, ref, tm, a, attempt, st, ch).value)
  {
  }

  lemma DrainPlain(c: Config, s: Sys, id: TaskId, ref: ActorRef, tm: Template, a: Actor, attempt: nat, w: Worker,
                   ch: Choice)
    requires ClaimStageOk(s.reg, Drain(w))
    ensures Plain(s, id, StepClaiming(c, s, id, ref, tm, a, attempt, Drain(w), ch).value)
  {
    LoserReleasesNothing(c, s.reg, w, ch.alive);
  }

  lemma SetupPlain(s: Sys, id: TaskId, ref: ActorRef, tm: Template, a: Actor, w: Worker, st: SetupStage, ch: Choice)
    ensures var q := StepSetup(s, id, ref, tm, a, w, st, ch); q.Some? ==> Plain(s, id, q.value)
  {
  }

  lemma StopPlain(c: Config, s: Sys, id: TaskId, ref: ActorRef, k: Kind, st: StopStage, ch: Choice)
    requires !st.Holding?
    ensures Plain(s, id, StepStop(c, s, id, ref, k, st, ch).value)
  {
  }

  lemma HoldPlain(c: Config, s: Sys, id: TaskId, ref: ActorRef, k: Kind, a: Actor, st: HoldStage, ch: Choice)
    requires !st.Release?
    ensures var q := StepHolding(c, s, id, ref, k, a, st, ch); q.Some? ==> Plain(s, id, q.value)
  {
  }

  lemma CrashPlain(s: Sys, id: TaskId, ref: ActorRef, st: CrashStage, ch: Choice)
    ensures Plain(s, id, StepCrash(s, id, ref, st, ch))
  {
  }

  lemma DeletePlain(s: Sys, id: TaskId, ref: ActorRef, st: DeleteStage, ch: Choice)
    ensures Plain(s, id, StepDelete(s, id, ref, st, ch))
  {
  }

  // Effects that keep every worker's sandbox where it is.
  lemma EffectKeepsSandboxes(r: Registry, e: RegEffect, id: WorkerId)
    requires RegLegal(r, e) && !e.Added? && !e.Dropped?
    ensures SandboxOfWorker(RegAfter(r, e).workers, id) == SandboxOfWorker(r.workers, id)
  {
  }

  lemma KeepsOwners(c: Config, s: Sys, id: TaskId, q: Sys, e: RegEffect)
    requires SandboxInv(c, s) && id in s.tasks && Advances(c, s, id, q, e) && !e.Added? && !e.Dropped?
    requires SandboxOfTask(s.tasks[id]).None? && SandboxOfTask(q.tasks[id]).None?
    ensures OwnersOk(q.reg.workers, q.tasks, s.reg.pool.held.Keys)
  {
    forall o
      ensures OwnedBy(q.reg.workers, q.tasks, o) == OwnedBy(s.reg.workers, s.tasks, o)
    {
      match o
      case ByWorker(w) => EffectKeepsSandboxes(s.reg, e, w);
      case ByRegistrar(_) =>
    }
    OwnersSame(s.reg.workers, s.tasks, s.reg.pool.held.Keys, q.reg.workers, q.tasks);
  }

  // ---- steps that move one ----

  lemma AcquirePool(c: Config, s: Sys, id: TaskId, ref: ActorRef, tm: Template, a: Actor, attempt: nat, pick: WorkerId)
    requires PS.Inv(c.pool, s.reg.pool) && StepAcquire(c, s, id, ref, tm, a, attempt, pick).Some?
    ensures var pool := StepAcquire(c, s, id, ref, tm, a, attempt, pick).value.reg.pool;
      PS.Inv(c.pool, pool) && pool.held == s.reg.pool.held
  {
    var q := StepAcquire(c, s, id, ref, tm, a, attempt, pick).value;
    if q.reg.pool != s.reg.pool {
      PS.StepSafe(c.pool, s.reg.pool, P.StartAcquire(id), q.reg.pool);
    }
  }

  lemma AcquireSandboxes(c: Config, s: Sys, id: TaskId, ref: ActorRef, tm: Template, a: Actor, attempt: nat,
                         pick: WorkerId)
    requires SandboxInv(c, s) && ReadyToStep(s, id, Resume(ref, Claiming(tm, a, attempt, Acquire)))
    requires StepAcquire(c, s, id, ref, tm, a, attempt, pick).Some?
    ensures SandboxInv(c, StepAcquire(c, s, id, ref, tm, a, attempt, pick).value)
  {
    var q := StepAcquire(c, s, id, ref, tm, a, attempt, pick).value;
    var e := AcquireAdvance(c, s, id, ref, tm, a, attempt, pick);
    KeepsOwners(c, s, id, q, e);
    AcquirePool(c, s, id, ref, tm, a, attempt, pick);
  }

  lemma WaitSandboxes(c: Config, s: Sys, id: TaskId, ref: ActorRef, tm: Template, a: Actor, attempt: nat)
    requires SandboxInv(c, s) && ReadyToStep(s, id, Resume(ref, Claiming(tm, a, attempt, Wait)))
    requires StepWait(c, s, id, ref, tm, a, attempt).Some?
    ensures SandboxInv(c, StepWait(c, s, id, ref, tm, a, attempt).value)
  {
    var q := StepWait(c, s, id, ref, tm, a, attempt).value;
    if s.reg.pool.ops[id].AcqDone? {
      var sb := s.reg.pool.ops[id].sb;
      TakeSafe(c, s.reg.pool, id);
      OwnerGains(s.reg.workers, s.tasks, s.reg.pool.held.Keys, q.reg.workers, q.tasks, ByRegistrar(id), sb);
    } else {
      RaiseSafe(c, s.reg.pool, id);
      OwnersSame(s.reg.workers, s.tasks, s.reg.pool.held.Keys, q.reg.workers, q.tasks);
    }
  }

  lemma RegisterSandboxes(c: Config, s: Sys, id: TaskId, ref: ActorRef, tm: Template, a: Actor, attempt: nat,
                          sb: P.Sandbox, unused: WorkerId, kind: string)
    requires SandboxInv(c, s) && ReadyToStep(s, id, Resume(ref, Claiming(tm, a, attempt, ClaimStage.Register(sb))))
    requires StepRegister(c, s, id, ref, tm, a, attempt, sb, unused, kind).Some?
    ensures SandboxInv(c, StepRegister(c, s, id, ref, tm, a, attempt, sb, unused, kind).value)
  {
    var q := StepRegister(c, s, id, ref, tm, a, attempt, sb, unused, kind).value;
    assert unused !in s.reg.workers;
    OwnerShifts(s.reg.workers, s.tasks, s.reg.pool.held.Keys, q.reg.workers, q.tasks, ByRegistrar(id),
                ByWorker(unused));
  }

  lemma DropSandboxes(c: Config, s: Sys, id: TaskId, q: Sys, w: Worker)
    requires SandboxInv(c, s) && id in s.tasks && w.workerId in s.reg.workers && s.reg.workers[w.workerId] == w
    requires w.sandbox.Some? && q.reg.workers == s.reg.workers - {w.workerId}
    requires q.reg.pool == ReturnSandbox(c, s.reg.pool, w.sandbox.value)
    requires id in q.tasks && q.tasks == s.tasks[id := q.tasks[id]]
    requires SandboxOfTask(s.tasks[id]).None? && SandboxOfTask(q.tasks[id]).None?
    ensures SandboxInv(c, q)
  {
    var sb := w.sandbox.value;
    assert OwnedBy(s.reg.workers, s.tasks, ByWorker(w.workerId)) == Some(sb);
    ReturnSafe(c, s.reg.pool, sb);
    OwnerLoses(s.reg.workers, s.tasks, s.reg.pool.held.Keys, q.reg.workers, q.tasks, ByWorker(w.workerId), sb);
  }

  lemma ReleaseSandboxes(c: Config, s: Sys, id: TaskId, ref: ActorRef, k: Kind, a: Actor, w: Worker,
                         saved: SnapshotRef, tree: Tree, alive: bool)
    requires SandboxInv(c, s) && ReadyToStep(s, id, Stop(ref, k, Holding(a, HoldStage.Release(w, saved, tree))))
    ensures SandboxInv(c, StepRelease(c, s, id, ref, k, a, w, saved, tree, alive))
  {
    var q := StepRelease(c, s, id, ref, k, a, w, saved, tree, alive);
    var e := ReleaseAdvance(c, s, id, ref, k, a, w, saved, tree, alive);
    if e.Dropped? {
      DropSandboxes(c, s, id, q, w);
    } else {
      KeepsOwners(c, s, id, q, e);
    }
  }

  // ---- every event ----

  lemma PlainSafe(c: Config, s: Sys, id: TaskId, ch: Choice, e: RegEffect)
    requires SandboxInv(c, s) && id in s.tasks && Step(c, s, id, ch).Some?
    requires Advances(c, s, id, Step(c, s, id, ch).value, e) && !e.Added? && !e.Dropped?
    requires SandboxOfTask(s.tasks[id]).None? && Plain(s, id, Step(c, s, id, ch).value)
    ensures SandboxInv(c, Step(c, s, id, ch).value)
  {
    KeepsOwners(c, s, id, Step(c, s, id, ch).value, e);
  }

  lemma ClaimingSandboxes(c: Config, s: Sys, id: TaskId, ref: ActorRef, tm: Template, a: Actor, attempt: nat,
                          st: ClaimStage, ch: Choice)
    requires SandboxInv(c, s) && ReadyToStep(s, id, Resume(ref, Claiming(tm, a, attempt, st)))
    requires Step(c, s, id, ch).Some?
    ensures SandboxInv(c, Step(c, s, id, ch).value)
  {
    match st
    case Acquire => AcquireSandboxes(c, s, id, ref, tm, a, attempt, ch.pick);
    case Wait => WaitSandboxes(c, s, id, ref, tm, a, attempt);
    case Register(sb) => RegisterSandboxes(c, s, id, ref, tm, a, attempt, sb, ch.worker, ch.kind);
    case Drain(w) =>
      DrainPlain(c, s, id, ref, tm, a, attempt, w, ch);
      DrainQuiet(c, s, id, ref, tm, a, attempt, w, ch.alive);
      QuietAdvances(c, s, id, Step(c, s, id, ch).value);
      PlainSafe(c, s, id, ch, Untouched);
    case Claim(w) =>
      ClaimPlain(c, s, id, ref, tm, a, attempt, st, ch);
      var e := ClaimAdvance(c, s, id, ref, tm, a, attempt, w, ch.at);
      PlainSafe(c, s, id, ch, e);
  }

  lemma ResumeSandboxes(c: Config, s: Sys, id: TaskId, ref: ActorRef, st: ResumeStage, ch: Choice)
    requires SandboxInv(c, s) && ReadyToStep(s, id, Resume(ref, st)) && Step(c, s, id, ch).Some?
    ensures SandboxInv(c, Step(c, s, id, ch).value)
  {
    match st
    case Claiming(tm, a, attempt, claim) => ClaimingSandboxes(c, s, id, ref, tm, a, attempt, claim, ch);
    case Setup(tm, a, w, setup) =>
      SetupPlain(s, id, ref, tm, a, w, setup, ch);
      SetupAdvance(c, s, id, ref, tm, a, w, setup, ch);
      PlainSafe(c, s, id, ch, Untouched);
    case _ =>
      ResumePlain(c, s, id, ref, st, ch);
      OutsideAdvance(c, s, id, ref, st, ch);
      PlainSafe(c, s, id, ch, Untouched);
  }

  lemma StopSandboxes(c: Config, s: Sys, id: TaskId, ref: ActorRef, k: Kind, st: StopStage, ch: Choice)
    requires SandboxInv(c, s) && ReadyToStep(s, id, Stop(ref, k, st)) && Step(c, s, id, ch).Some?
    ensures SandboxInv(c, Step(c, s, id, ch).value)
  {
    if st.Holding? && st.hold.Release? {
      ReleaseSandboxes(c, s, id, ref, k, st.actor, st.hold.worker, st.hold.saved, st.hold.tree, ch.alive);
    } else {
      if st.Holding? {
        HoldPlain(c, s, id, ref, k, st.actor, st.hold, ch);
      } else {
        StopPlain(c, s, id, ref, k, st, ch);
      }
      KeepingAdvance(c, s, id, ref, k, st, ch);
      PlainSafe(c, s, id, ch, Untouched);
    }
  }

  lemma AdvanceSandboxes(c: Config, s: Sys, id: TaskId, ch: Choice)
    requires SandboxInv(c, s) && id in s.tasks && ReadyToStep(s, id, s.tasks[id]) && Step(c, s, id, ch).Some?
    ensures SandboxInv(c, Step(c, s, id, ch).value)
  {
    match s.tasks[id]
    case Resume(ref, st) => ResumeSandboxes(c, s, id, ref, st, ch);
    case Stop(ref, k, st) => StopSandboxes(c, s, id, ref, k, st, ch);
    case Crash(ref, st) =>
      CrashPlain(s, id, ref, st, ch);
      EndingAdvance(c, s, id, ch);
      PlainSafe(c, s, id, ch, Untouched);
    case Delete(ref, st) =>
      DeletePlain(s, id, ref, st, ch);
      EndingAdvance(c, s, id, ch);
      PlainSafe(c, s, id, ch, Untouched);
    case Ended(_) =>
  }

  lemma RetireSandboxes(c: Config, r: Registry, tasks: map<TaskId, Task>, id: WorkerId)
    requires PS.Inv(c.pool, r.pool) && OwnersOk(r.workers, tasks, r.pool.held.Keys) && Ours(r.pool)
    requires id in r.workers && r.workers[id].workerId == id && r.workers[id].sandbox.Some?
    ensures var r' := Retire(c, r, r.workers[id]);
      PS.Inv(c.pool, r'.pool) && OwnersOk(r'.workers, tasks, r'.pool.held.Keys) && Ours(r'.pool)
  {
    var sb := r.workers[id].sandbox.value;
    assert OwnedBy(r.workers, tasks, ByWorker(id)) == Some(sb);
    ReturnSafe(c, r.pool, sb);
    OwnerLoses(r.workers, tasks, r.pool.held.Keys, r.workers - {id}, tasks, ByWorker(id), sb);
  }

  lemma {:induction false} SweepSandboxes(c: Config, r: Registry, tasks: map<TaskId, Task>, ids: seq<WorkerId>)
    requires PS.Inv(c.pool, r.pool) && OwnersOk(r.workers, tasks, r.pool.held.Keys) && Ours(r.pool)
    requires forall id :: id in r.workers ==> r.workers[id].workerId == id && r.workers[id].sandbox.Some?
    ensures var r' := RetireAll(c, r, ids);
      PS.Inv(c.pool, r'.pool) && OwnersOk(r'.workers, tasks, r'.pool.held.Keys) && Ours(r'.pool)
  {
    if ids == [] {
    } else {
      var front, id := ids[..|ids| - 1], ids[|ids| - 1];
      SweepSandboxes(c, r, tasks, front);
      RetireAllTable(c, r, front);
      var r1 := RetireAll(c, r, front);
      if id in r1.workers {
        RetireSandboxes(c, r1, tasks, id);
      }
    }
  }

  lemma SandboxStep(c: Config, s: Sys, e: Event)
    requires ActorInv(s.actors, s.tasks) && WorkerInv(c, s) && SandboxInv(c, s) && Apply(c, s, e).Some?
    ensures SandboxInv(c, Apply(c, s, e).value)
  {
    match e
    case Begin(id, task) =>
      OwnersSame(s.reg.workers, s.tasks, s.reg.pool.held.Keys, s.reg.workers, s.tasks[id := task]);
    case Advance(id, choice) => AdvanceSandboxes(c, s, id, choice);
    case PoolStep(event) => InternalSafe(c, s, event);
    case SweepWarm(order) =>
      SweepSandboxes(c, s.reg.(warm := s.reg.warm - (set id | id in order)), s.tasks, order);
    case _ =>
  }

  // Events inside the sandbox pool hand nothing out and take nothing back.
  lemma InternalKeepsHeld(c: P.Config, p: P.Pool, e: P.Event)
    requires !P.External(e) && P.Apply(c, p, e).Some?
    ensures P.Apply(c, p, e).value.held == p.held && P.Rightful(p, e)
  {
  }

  lemma InternalSafe(c: Config, s: Sys, e: P.Event)
    requires SandboxInv(c, s) && !P.External(e) && P.Apply(c.pool, s.reg.pool, e).Some?
    ensures var pool := P.Apply(c.pool, s.reg.pool, e).value;
      PS.Inv(c.pool, pool) && pool.held == s.reg.pool.held
  {
    InternalKeepsHeld(c.pool, s.reg.pool, e);
    PS.StepSafe(c.pool, s.reg.pool, e, P.Apply(c.pool, s.reg.pool, e).value);
  }
}
