// What an operation gets done when nobody interferes: from every state, run on
// its own, a resume that finds a worker brings its actor up, and a suspend or
// pause whose checkpoint succeeds takes it down.
module Progress {
  import opened Wrappers
  import opened Model
  import opened Stores
  import opened WorkerPoolModel
  import opened OrchestratorModel
  import P = PoolModel

  // ---- runs between two states ----

  ghost predicate Leads(c: Config, s: Sys, q: Sys) {
    exists es :: Run(c, s, es) == Some(q)
  }

  lemma Stays(c: Config, s: Sys)
    ensures Leads(c, s, s)
  {
    assert Run(c, s, []) == Some(s);
  }

  // One event more.
  lemma Then(c: Config, o: Sys, s: Sys, e: Event, q: Sys)
    requires Leads(c, o, s) && Apply(c, s, e) == Some(q)
    ensures Leads(c, o, q)
  {
    var es :| Run(c, o, es) == Some(s);
    var more := es + [e];
    assert more[..|more| - 1] == es;
    assert Run(c, o, more) == Some(q);
  }

  // ---- steps of one task ----

  // A choice of the environment that leaves sandboxes alive.
  function Choose(pick: WorkerId, io: IO, snapshot: SnapshotRef, worker: WorkerId, at: Time): Choice {
    Choice(pick, io, snapshot, worker, "vfs", true, at)
  }

  function Fine(at: Time): Choice {
    Choose(0, Succeeds, 0, 0, at)
  }

  lemma Again(s: Sys, id: TaskId, t: Task, t': Task)
    ensures Goto(Goto(s, id, t), id, t') == Goto(s, id, t')
  {
    assert s.tasks[id := t][id := t'] == s.tasks[id := t'];
  }

  // The record a compare-and-swap write stores for `a`.
  function Next(a: Actor, at: Time): Actor {
    a.(version := a.version + 1, createdAt := if a.createdAt == 0 then at else a.createdAt, updatedAt := at)
  }

  // Task id is at stage st of a resume, in state s otherwise.
  function Resuming(s: Sys, id: TaskId, ref: ActorRef, st: ResumeStage): Sys {
    Goto(s, id, Resume(ref, st))
  }

  // ---- a resume, up to its flip ----

  predicate CanResume(s: Sys, ref: ActorRef) {
    && ref in s.actors && s.actors[ref].Ref() == ref && Detached(s.actors[ref].status)
    && s.actors[ref].templateId in s.catalog.templates
  }

  function TemplateOf(s: Sys, ref: ActorRef): Template
    requires CanResume(s, ref)
  {
    s.catalog.templates[s.actors[ref].templateId]
  }

  lemma Loads(c: Config, o: Sys, s: Sys, id: TaskId, ref: ActorRef)
    requires Leads(c, o, s) && CanResume(s, ref) && id !in s.tasks && !HasLeader(s, ref)
    ensures Leads(c, o, Resuming(s, id, ref, Flip(TemplateOf(s, ref), s.actors[ref])))
  {
    var tm, a := TemplateOf(s, ref), s.actors[ref];
    Then(c, o, s, Begin(id, Resume(ref, Read)), Resuming(s, id, ref, Read));
    Again(s, id, Resume(ref, Read), Resume(ref, Probe(tm)));
    Then(c, o, Resuming(s, id, ref, Read), Advance(id, Fine(0)), Resuming(s, id, ref, Probe(tm)));
    Again(s, id, Resume(ref, Probe(tm)), Resume(ref, Load(tm)));
    Then(c, o, Resuming(s, id, ref, Probe(tm)), Advance(id, Fine(0)), Resuming(s, id, ref, Load(tm)));
    Again(s, id, Resume(ref, Load(tm)), Resume(ref, Flip(tm, a)));
    Then(c, o, Resuming(s, id, ref, Load(tm)), Advance(id, Fine(0)), Resuming(s, id, ref, Flip(tm, a)));
  }

  function Flipped(s: Sys, ref: ActorRef, at: Time): Sys
    requires ref in s.actors
  {
    s.(actors := s.actors[ref := Next(WithStatus(s.actors[ref], RESUMING), at)])
  }

  // The resume is looking for a worker.
  function Looking(s: Sys, id: TaskId, ref: ActorRef, tm: Template): Sys
    requires ref in s.actors
  {
    Resuming(s, id, ref, Claiming(tm, s.actors[ref], 0, Acquire))
  }

  lemma Flips(c: Config, o: Sys, s: Sys, id: TaskId, ref: ActorRef, at: Time)
    requires Leads(c, o, s) && CanResume(s, ref) && id !in s.tasks && !HasLeader(s, ref)
    ensures Leads(c, o, Looking(Flipped(s, ref, at), id, ref, TemplateOf(s, ref)))
  {
    var tm, a := TemplateOf(s, ref), s.actors[ref];
    var q := Flipped(s, ref, at);
    Loads(c, o, s, id, ref);
    Again(q, id, Resume(ref, Flip(tm, a)), Resume(ref, Claiming(tm, q.actors[ref], 0, Acquire)));
    Then(c, o, Resuming(s, id, ref, Flip(tm, a)), Advance(id, Fine(at)), Looking(q, id, ref, tm));
  }

  // ---- finding a worker ----

  function Popped(s: Sys, w: WorkerId): Sys {
    s.(reg := s.reg.(warm := s.reg.warm - {w}))
  }

  // The resume is about to claim the registered worker w.
  function Claiming0(s: Sys, id: TaskId, ref: ActorRef, tm: Template, a: Actor, w: WorkerId): Sys
    requires w in s.reg.workers
  {
    Resuming(s, id, ref, Claiming(tm, a, 0, Claim(s.reg.workers[w])))
  }

  lemma PicksIdle(c: Config, o: Sys, s: Sys, id: TaskId, ref: ActorRef, tm: Template, w: WorkerId)
    requires ref in s.actors && Leads(c, o, Looking(s, id, ref, tm))
    requires Eligible(s.reg.workers, ConstraintsFor(tm, s.actors[ref]), w)
    ensures Leads(c, o, Claiming0(Popped(s, w), id, ref, tm, s.actors[ref], w))
  {
    var a := s.actors[ref];
    var ch := Choose(w, Succeeds, 0, 0, 0);
    Again(Popped(s, w), id, Resume(ref, Claiming(tm, a, 0, Acquire)),
          Resume(ref, Claiming(tm, a, 0, Claim(s.reg.workers[w]))));
    Then(c, o, Looking(s, id, ref, tm), Advance(id, ch), Claiming0(Popped(s, w), id, ref, tm, a, w));
  }

  // The pool can make a sandbox for a caller.
  predicate HasRoom(c: Config, p: P.Pool, id: P.OpId, sb: P.Sandbox) {
    && p.core.free == [] && P.Total(p.core) < c.pool.maxSize && c.pool.maxProvisions == 0
    && id !in p.ops && sb !in p.made
  }

  function InPool(s: Sys, p: P.Pool): Sys {
    s.(reg := s.reg.(pool := p))
  }

  // The resume waits while its acquire is at `op`.
  function Acquiring(s: Sys, id: TaskId, ref: ActorRef, tm: Template, p: P.Pool, op: P.Op): Sys
    requires ref in s.actors
  {
    Resuming(InPool(s, P.Goto(p, id, op)), id, ref, Claiming(tm, s.actors[ref], 0, Wait))
  }

  lemma OpAgain(p: P.Pool, id: P.OpId, op: P.Op, op': P.Op)
    ensures P.Goto(P.Goto(p, id, op), id, op') == P.Goto(p, id, op')
  {
    assert p.ops[id := op][id := op'] == p.ops[id := op'];
  }

  function Pending(p: P.Pool): P.Pool {
    p.(core := p.core.(pending := p.core.pending + 1))
  }

  lemma Waits(c: Config, o: Sys, s: Sys, id: TaskId, ref: ActorRef, tm: Template)
    requires ref in s.actors && Leads(c, o, Looking(s, id, ref, tm)) && id !in s.reg.pool.ops
    requires forall w :: w in s.reg.workers ==> !Eligible(s.reg.workers, ConstraintsFor(tm, s.actors[ref]), w)
    ensures Leads(c, o, Acquiring(s, id, ref, tm, s.reg.pool, P.AcqLoop))
  {
    var a, p := s.actors[ref], P.BeginAcquire(s.reg.pool, id);
    Again(InPool(s, p), id, Resume(ref, Claiming(tm, a, 0, Acquire)), Resume(ref, Claiming(tm, a, 0, Wait)));
    Then(c, o, Looking(s, id, ref, tm), Advance(id, Fine(0)), Acquiring(s, id, ref, tm, s.reg.pool, P.AcqLoop));
  }

  lemma Reserves(c: Config, o: Sys, s: Sys, id: TaskId, ref: ActorRef, tm: Template, sb: P.Sandbox)
    requires ref in s.actors && Leads(c, o, Acquiring(s, id, ref, tm, s.reg.pool, P.AcqLoop))
    requires HasRoom(c, s.reg.pool, id, sb)
    ensures Leads(c, o, Acquiring(s, id, ref, tm, Pending(s.reg.pool), P.AcqBooting))
  {
    var p := Pending(s.reg.pool);
    OpAgain(p, id, P.AcqLoop, P.AcqQueued);
    OpAgain(p, id, P.AcqQueued, P.AcqBooting);
    Then(c, o, Acquiring(s, id, ref, tm, s.reg.pool, P.AcqLoop), PoolStep(P.EnterAcquire(id)),
         Acquiring(s, id, ref, tm, p, P.AcqQueued));
    Then(c, o, Acquiring(s, id, ref, tm, p, P.AcqQueued), PoolStep(P.EnterFactory(id)),
         Acquiring(s, id, ref, tm, p, P.AcqBooting));
  }

  function Made(p: P.Pool, sb: P.Sandbox): P.Pool {
    p.(made := p.made + {sb})
  }

  function Used(p: P.Pool, sb: P.Sandbox): P.Pool {
    Made(p, sb).(core := p.core.(inUse := p.core.inUse + {sb}))
  }

  lemma Boots(c: Config, o: Sys, s: Sys, id: TaskId, ref: ActorRef, tm: Template, sb: P.Sandbox)
    requires ref in s.actors && Leads(c, o, Acquiring(s, id, ref, tm, Pending(s.reg.pool), P.AcqBooting))
    requires HasRoom(c, s.reg.pool, id, sb)
    ensures Leads(c, o, Acquiring(s, id, ref, tm, Made(Pending(s.reg.pool), sb), P.AcqBooted(sb)))
  {
    var p := Made(Pending(s.reg.pool), sb);
    OpAgain(p, id, P.AcqBooting, P.AcqBooted(sb));
    Then(c, o, Acquiring(s, id, ref, tm, Pending(s.reg.pool), P.AcqBooting), PoolStep(P.FactoryReturns(id, sb)),
         Acquiring(s, id, ref, tm, p, P.AcqBooted(sb)));
  }

  lemma Converts(c: Config, o: Sys, s: Sys, id: TaskId, ref: ActorRef, tm: Template, sb: P.Sandbox)
    requires ref in s.actors
    requires Leads(c, o, Acquiring(s, id, ref, tm, Made(Pending(s.reg.pool), sb), P.AcqBooted(sb)))
    ensures Leads(c, o, Acquiring(s, id, ref, tm, Used(s.reg.pool, sb), P.AcqDone(sb)))
  {
    var p, q := Made(Pending(s.reg.pool), sb), Used(s.reg.pool, sb);
    OpAgain(q, id, P.AcqBooted(sb), P.AcqDone(sb));
    Then(c, o, Acquiring(s, id, ref, tm, p, P.AcqBooted(sb)), PoolStep(P.FinishProvision(id)),
         Acquiring(s, id, ref, tm, q, P.AcqDone(sb)));
  }

  function Lent(p: P.Pool, sb: P.Sandbox): P.Pool {
    Used(p, sb).(held := p.held[sb := OWNER])
  }

  // A fresh worker around a fresh sandbox.
  function Registered(c: Config, s: Sys, w: WorkerId, sb: P.Sandbox): Sys {
    s.(reg := WorkerPoolModel.Register(s.reg, NewWorker(c, w, "vfs", sb)).(pool := Lent(s.reg.pool, sb)))
  }

  lemma Registers(c: Config, o: Sys, s: Sys, id: TaskId, ref: ActorRef, tm: Template, sb: P.Sandbox, w: WorkerId)
    requires ref in s.actors && Leads(c, o, Acquiring(s, id, ref, tm, Used(s.reg.pool, sb), P.AcqDone(sb)))
    requires id !in s.reg.pool.ops && w !in s.reg.usedIds
    ensures Leads(c, o, Claiming0(Registered(c, s, w, sb), id, ref, tm, s.actors[ref], w))
  {
    var a, lent := s.actors[ref], InPool(s, Lent(s.reg.pool, sb));
    assert s.reg.pool.ops[id := P.AcqDone(sb)] - {id} == s.reg.pool.ops;
    var claim := ClaimStage.Register(sb);
    Again(lent, id, Resume(ref, Claiming(tm, a, 0, Wait)), Resume(ref, Claiming(tm, a, 0, claim)));
    Then(c, o, Acquiring(s, id, ref, tm, Used(s.reg.pool, sb), P.AcqDone(sb)), Advance(id, Fine(0)),
         Resuming(lent, id, ref, Claiming(tm, a, 0, claim)));
    var next := Claiming(tm, a, 0, Claim(NewWorker(c, w, "vfs", sb)));
    Again(Registered(c, s, w, sb), id, Resume(ref, Claiming(tm, a, 0, claim)), Resume(ref, next));
    Then(c, o, Resuming(lent, id, ref, Claiming(tm, a, 0, claim)), Advance(id, Choose(0, Succeeds, 0, w, 0)),
         Claiming0(Registered(c, s, w, sb), id, ref, tm, a, w));
  }

  // With no eligible worker and room in the pool, the resume gets a fresh one.
  lemma TakesFresh(c: Config, o: Sys, s: Sys, id: TaskId, ref: ActorRef, tm: Template, sb: P.Sandbox, w: WorkerId)
    requires ref in s.actors && Leads(c, o, Looking(s, id, ref, tm))
    requires forall x :: x in s.reg.workers ==> !Eligible(s.reg.workers, ConstraintsFor(tm, s.actors[ref]), x)
    requires HasRoom(c, s.reg.pool, id, sb) && w !in s.reg.usedIds
    ensures Leads(c, o, Claiming0(Registered(c, s, w, sb), id, ref, tm, s.actors[ref], w))
  {
    Waits(c, o, s, id, ref, tm);
    Reserves(c, o, s, id, ref, tm, sb);
    Boots(c, o, s, id, ref, tm, sb);
    Converts(c, o, s, id, ref, tm, sb);
    Registers(c, o, s, id, ref, tm, sb, w);
  }

  // ---- claiming it and coming up ----

  function Assigned(w: Worker, asg: Assignment): Worker {
    w.(assignment := Some(asg), version := w.version + 1)
  }

  function Claimed(s: Sys, ref: ActorRef, w: WorkerId, at: Time): Sys
    requires w in s.reg.workers
  {
    var x := s.reg.workers[w];
    s.(reg := s.reg.(workers := s.reg.workers[w := Assigned(x, AssignmentFor(ref, x, at))]))
  }

  // The resume sets the registered worker w up.
  function SettingUp(s: Sys, id: TaskId, ref: ActorRef, tm: Template, w: WorkerId, st: SetupStage): Sys
    requires ref in s.actors && w in s.reg.workers
  {
    Resuming(s, id, ref, Setup(tm, s.actors[ref], s.reg.workers[w], st))
  }

  predicate CanClaim(s: Sys, w: WorkerId) {
    w in s.reg.workers && s.reg.workers[w].workerId == w && s.reg.workers[w].IsIdle()
  }

  lemma Claims(c: Config, o: Sys, s: Sys, id: TaskId, ref: ActorRef, tm: Template, w: WorkerId, at: Time)
    requires ref in s.actors && CanClaim(s, w) && Leads(c, o, Claiming0(s, id, ref, tm, s.actors[ref], w))
    ensures Leads(c, o, SettingUp(Claimed(s, ref, w, at), id, ref, tm, w, Restore))
  {
    var a, q := s.actors[ref], Claimed(s, ref, w, at);
    Again(q, id, Resume(ref, Claiming(tm, a, 0, Claim(s.reg.workers[w]))),
          Resume(ref, Setup(tm, a, q.reg.workers[w], Restore)));
    Then(c, o, Claiming0(s, id, ref, tm, a, w), Advance(id, Fine(at)), SettingUp(q, id, ref, tm, w, Restore));
  }

  // Somebody else's claim came first.
  lemma LosesClaim(c: Config, o: Sys, s: Sys, id: TaskId, ref: ActorRef, tm: Template, a: Actor, attempt: nat,
                   w: Worker)
    requires Leads(c, o, s) && id in s.tasks && s.tasks[id] == Resume(ref, Claiming(tm, a, attempt, Claim(w)))
    requires w.workerId in s.reg.workers && s.reg.workers[w.workerId].version != w.version
    ensures Leads(c, o, Resuming(s, id, ref, Claiming(tm, a, attempt, Drain(w))))
  {
    Then(c, o, s, Advance(id, Fine(0)), Resuming(s, id, ref, Claiming(tm, a, attempt, Drain(w))));
  }

  // What restoring leaves in the sandbox: the actor's snapshot, if it has one.
  function SetUp(s: Sys, a: Actor, w: Worker): Sys {
    if a.snapshot.Some? && CanRestore(s, w, a.snapshot.value) then Restored(s, w, a.snapshot.value) else s
  }

  predicate CanSetUp(s: Sys, a: Actor, w: Worker) {
    a.snapshot.Some? ==> CanRestore(s, w, a.snapshot.value)
  }

  // Without a snapshot of its own the actor boots as the sandbox is: here the
  // template's snapshot is gone, or taking one fails.
  lemma BootsAsIs(c: Config, o: Sys, s: Sys, id: TaskId, ref: ActorRef, tm: Template, w: WorkerId)
    requires ref in s.actors && w in s.reg.workers && s.actors[ref].snapshot.None?
    requires Leads(c, o, SettingUp(s, id, ref, tm, w, Restore))
    ensures Leads(c, o, SettingUp(s, id, ref, tm, w, Check))
  {
    var a, x := s.actors[ref], s.reg.workers[w];
    var golden := tm.templateId in s.catalog.golden;
    var st := if golden then Golden(s.catalog.golden[tm.templateId]) else Capture;
    var ch := Choose(0, if golden then Absent else Fails, 0, 0, 0);
    Again(s, id, Resume(ref, Setup(tm, a, x, Restore)), Resume(ref, Setup(tm, a, x, st)));
    Then(c, o, SettingUp(s, id, ref, tm, w, Restore), Advance(id, ch), SettingUp(s, id, ref, tm, w, st));
    Again(s, id, Resume(ref, Setup(tm, a, x, st)), Resume(ref, Setup(tm, a, x, Check)));
    Then(c, o, SettingUp(s, id, ref, tm, w, st), Advance(id, ch), SettingUp(s, id, ref, tm, w, Check));
  }

  lemma Restores(c: Config, o: Sys, s: Sys, id: TaskId, ref: ActorRef, tm: Template, w: WorkerId)
    requires ref in s.actors && w in s.reg.workers && CanSetUp(s, s.actors[ref], s.reg.workers[w])
    requires Leads(c, o, SettingUp(s, id, ref, tm, w, Restore))
    ensures Leads(c, o, SettingUp(SetUp(s, s.actors[ref], s.reg.workers[w]), id, ref, tm, w, Check))
  {
    var a, x := s.actors[ref], s.reg.workers[w];
    var q := SetUp(s, a, x);
    if a.snapshot.Some? {
      Again(q, id, Resume(ref, Setup(tm, a, x, Restore)), Resume(ref, Setup(tm, a, x, Check)));
      Then(c, o, SettingUp(s, id, ref, tm, w, Restore), Advance(id, Fine(0)), SettingUp(q, id, ref, tm, w, Check));
    } else {
      BootsAsIs(c, o, s, id, ref, tm, w);
    }
  }

  // The actor runs on worker w.
  function Up(s: Sys, ref: ActorRef, w: WorkerId, at: Time): Sys
    requires ref in s.actors && w in s.reg.workers
  {
    var asg := AssignmentFor(ref, s.reg.workers[w], at);
    var rec := Next(WithStatus(s.actors[ref], RUNNING).(assignment := Some(asg)), at);
    s.(actors := s.actors[ref := rec], bindings := s.bindings[ref := asg])
  }

  lemma Finalizes(c: Config, o: Sys, s: Sys, id: TaskId, ref: ActorRef, tm: Template, w: WorkerId, at: Time)
    requires ref in s.actors && s.actors[ref].Ref() == ref && !s.actors[ref].status.RUNNING? && w in s.reg.workers
    requires Leads(c, o, SettingUp(s, id, ref, tm, w, Check))
    ensures Leads(c, o, End(Up(s, ref, w, at), id, ref))
  {
    var a, x := s.actors[ref], s.reg.workers[w];
    Again(s, id, Resume(ref, Setup(tm, a, x, Check)), Resume(ref, Setup(tm, a, x, Finalize)));
    Then(c, o, SettingUp(s, id, ref, tm, w, Check), Advance(id, Fine(0)), SettingUp(s, id, ref, tm, w, Finalize));
    Again(Up(s, ref, w, at), id, Resume(ref, Setup(tm, a, x, Finalize)), Ended(ref));
    Then(c, o, SettingUp(s, id, ref, tm, w, Finalize), Advance(id, Fine(at)), End(Up(s, ref, w, at), id, ref));
  }

  // From its claim on: the actor comes up on w, with its snapshot in place.
  function CameUp(s: Sys, ref: ActorRef, w: WorkerId, at: Time): Sys
    requires ref in s.actors && w in s.reg.workers
  {
    var q := Claimed(s, ref, w, at);
    Up(SetUp(q, q.actors[ref], q.reg.workers[w]), ref, w, at)
  }

  lemma ComesUp(c: Config, o: Sys, s: Sys, id: TaskId, ref: ActorRef, tm: Template, w: WorkerId, at: Time)
    requires ref in s.actors && s.actors[ref].Ref() == ref && s.actors[ref].status.RESUMING? && CanClaim(s, w)
    requires CanSetUp(s, s.actors[ref], s.reg.workers[w])
    requires Leads(c, o, Claiming0(s, id, ref, tm, s.actors[ref], w))
    ensures Leads(c, o, End(CameUp(s, ref, w, at), id, ref))
  {
    var q := Claimed(s, ref, w, at);
    Claims(c, o, s, id, ref, tm, w, at);
    Restores(c, o, q, id, ref, tm, w);
    Finalizes(c, o, SetUp(q, q.actors[ref], q.reg.workers[w]), id, ref, tm, w, at);
  }

  predicate NoneEligible(s: Sys, tm: Template, ref: ActorRef)
    requires ref in s.actors
  {
    forall w :: w in s.reg.workers ==> !Eligible(s.reg.workers, ConstraintsFor(tm, s.actors[ref]), w)
  }

  // The whole of a resume, onto a fresh worker or an idle one.
  function ResumedFresh(c: Config, s: Sys, ref: ActorRef, sb: P.Sandbox, w: WorkerId, at: Time): Sys
    requires ref in s.actors
  {
    CameUp(Registered(c, Flipped(s, ref, at), w, sb), ref, w, at)
  }

  lemma ResumesFresh(c: Config, o: Sys, s: Sys, id: TaskId, ref: ActorRef, sb: P.Sandbox, w: WorkerId, at: Time)
    requires Leads(c, o, s) && CanResume(s, ref) && id !in s.tasks && !HasLeader(s, ref)
    requires NoneEligible(s, TemplateOf(s, ref), ref) && HasRoom(c, s.reg.pool, id, sb) && w !in s.reg.usedIds
    requires s.actors[ref].snapshot.Some? ==> s.actors[ref].snapshot.value in s.disk.snapshots
    ensures Leads(c, o, End(ResumedFresh(c, s, ref, sb, w, at), id, ref))
  {
    var tm, f := TemplateOf(s, ref), Flipped(s, ref, at);
    Flips(c, o, s, id, ref, at);
    assert ConstraintsFor(tm, f.actors[ref]) == ConstraintsFor(tm, s.actors[ref]);
    TakesFresh(c, o, f, id, ref, tm, sb, w);
    ComesUp(c, o, Registered(c, f, w, sb), id, ref, tm, w, at);
  }

  function ResumedOn(s: Sys, ref: ActorRef, w: WorkerId, at: Time): Sys
    requires ref in s.actors && w in s.reg.workers
  {
    CameUp(Popped(Flipped(s, ref, at), w), ref, w, at)
  }

  lemma ResumesOn(c: Config, o: Sys, s: Sys, id: TaskId, ref: ActorRef, w: WorkerId, at: Time)
    requires Leads(c, o, s) && CanResume(s, ref) && id !in s.tasks && !HasLeader(s, ref) && CanClaim(s, w)
    requires Eligible(s.reg.workers, ConstraintsFor(TemplateOf(s, ref), s.actors[ref]), w)
    requires s.actors[ref].snapshot.Some? ==> s.actors[ref].snapshot.value in s.disk.snapshots
    ensures Leads(c, o, End(ResumedOn(s, ref, w, at), id, ref))
  {
    var tm, f := TemplateOf(s, ref), Flipped(s, ref, at);
    Flips(c, o, s, id, ref, at);
    assert ConstraintsFor(tm, f.actors[ref]) == ConstraintsFor(tm, s.actors[ref]);
    PicksIdle(c, o, f, id, ref, tm, w);
    ComesUp(c, o, Popped(f, w), id, ref, tm, w, at);
  }

  // ---- a suspend or pause ----

  // Task id is at stage st of a suspend or pause.
  function Stopping(s: Sys, id: TaskId, ref: ActorRef, k: Kind, st: StopStage): Sys {
    Goto(s, id, Stop(ref, k, st))
  }

  predicate CanStop(s: Sys, ref: ActorRef) {
    && ref in s.actors && s.actors[ref].Ref() == ref && s.actors[ref].status.RUNNING?
    && s.actors[ref].assignment.Some? && s.actors[ref].assignment.value.workerId in s.reg.workers
    && s.actors[ref].templateId in s.catalog.templates
  }

  function FlippedDown(s: Sys, ref: ActorRef, k: Kind, at: Time): Sys
    requires ref in s.actors
  {
    s.(actors := s.actors[ref := Next(WithStatus(s.actors[ref], StopTransient(k)), at)])
  }

  // The stop has the worker its actor ran on.
  function Holds(s: Sys, id: TaskId, ref: ActorRef, k: Kind, st: HoldStage): Sys
    requires ref in s.actors
  {
    Stopping(s, id, ref, k, Holding(s.actors[ref], st))
  }

  lemma FlipsDown(c: Config, o: Sys, s: Sys, id: TaskId, ref: ActorRef, k: Kind, at: Time)
    requires Leads(c, o, s) && CanStop(s, ref) && id !in s.tasks
    ensures Leads(c, o, Holds(FlippedDown(s, ref, k, at), id, ref, k, Fetch))
  {
    var a, q := s.actors[ref], FlippedDown(s, ref, k, at);
    Then(c, o, s, Begin(id, Stop(ref, k, StopRead)), Stopping(s, id, ref, k, StopRead));
    Again(s, id, Stop(ref, k, StopRead), Stop(ref, k, StopFlip(a)));
    Then(c, o, Stopping(s, id, ref, k, StopRead), Advance(id, Fine(0)), Stopping(s, id, ref, k, StopFlip(a)));
    Again(q, id, Stop(ref, k, StopFlip(a)), Stop(ref, k, Holding(q.actors[ref], Fetch)));
    Then(c, o, Stopping(s, id, ref, k, StopFlip(a)), Advance(id, Fine(at)), Holds(q, id, ref, k, Fetch));
  }

  // It has read the worker's record.
  lemma Fetches(c: Config, o: Sys, s: Sys, id: TaskId, ref: ActorRef, k: Kind, w: WorkerId)
    requires ref in s.actors && s.actors[ref].assignment.Some? && s.actors[ref].assignment.value.workerId == w
    requires w in s.reg.workers && Leads(c, o, Holds(s, id, ref, k, Fetch))
    ensures Leads(c, o, Holds(s, id, ref, k, Save(s.reg.workers[w])))
  {
    var a := s.actors[ref];
    Again(s, id, Stop(ref, k, Holding(a, Fetch)), Stop(ref, k, Holding(a, Save(s.reg.workers[w]))));
    Then(c, o, Holds(s, id, ref, k, Fetch), Advance(id, Fine(0)), Holds(s, id, ref, k, Save(s.reg.workers[w])));
  }

  function Saved(s: Sys, w: Worker, snap: SnapshotRef): Sys {
    s.(disk := s.disk.(snapshots := s.disk.snapshots[snap := TreeOf(s.disk, w)]))
  }

  lemma SavesTree(c: Config, o: Sys, s: Sys, id: TaskId, ref: ActorRef, k: Kind, w: Worker, snap: SnapshotRef)
    requires ref in s.actors && w.sandbox.Some? && snap !in s.disk.snapshots
    requires Leads(c, o, Holds(s, id, ref, k, Save(w)))
    ensures Leads(c, o, Holds(Saved(s, w, snap), id, ref, k, Unbind(w, snap, TreeOf(s.disk, w))))
  {
    var a, tree := s.actors[ref], TreeOf(s.disk, w);
    Again(Saved(s, w, snap), id, Stop(ref, k, Holding(a, Save(w))), Stop(ref, k, Holding(a, Unbind(w, snap, tree))));
    Then(c, o, Holds(s, id, ref, k, Save(w)), Advance(id, Choose(0, Succeeds, snap, 0, 0)),
         Holds(Saved(s, w, snap), id, ref, k, Unbind(w, snap, tree)));
  }

  function Unbound(s: Sys, ref: ActorRef): Sys {
    s.(bindings := s.bindings - {ref})
  }

  lemma UnbindsActor(c: Config, o: Sys, s: Sys, id: TaskId, ref: ActorRef, k: Kind, a: Actor, w: Worker,
                     snap: SnapshotRef, tree: Tree)
    requires Leads(c, o, Stopping(s, id, ref, k, Holding(a, Unbind(w, snap, tree))))
    ensures Leads(c, o, Stopping(Unbound(s, ref), id, ref, k, Holding(a, HoldStage.Release(w, snap, tree))))
  {
    var release := HoldStage.Release(w, snap, tree);
    Again(Unbound(s, ref), id, Stop(ref, k, Holding(a, Unbind(w, snap, tree))), Stop(ref, k, Holding(a, release)));
    Then(c, o, Stopping(s, id, ref, k, Holding(a, Unbind(w, snap, tree))), Advance(id, Fine(0)),
         Stopping(Unbound(s, ref), id, ref, k, Holding(a, release)));
  }

  // The release the worker pool makes of the holder's worker.
  function GivenBack(c: Config, s: Sys, w: Worker): Sys {
    match ReleaseWorker(c, s.reg, w, false, true)
    case Released(reg) => s.(reg := reg)
    case Refused => s
  }

  lemma GivesBack(c: Config, o: Sys, s: Sys, id: TaskId, ref: ActorRef, k: Kind, a: Actor, w: Worker,
                  snap: SnapshotRef, tree: Tree)
    requires w.workerId in s.reg.workers && s.reg.workers[w.workerId] == w
    requires Leads(c, o, Stopping(s, id, ref, k, Holding(a, HoldStage.Release(w, snap, tree))))
    ensures Leads(c, o, Stopping(GivenBack(c, s, w), id, ref, k, StopCommit(a, snap, tree)))
  {
    var release := Stop(ref, k, Holding(a, HoldStage.Release(w, snap, tree)));
    Again(GivenBack(c, s, w), id, release, Stop(ref, k, StopCommit(a, snap, tree)));
    Then(c, o, Goto(s, id, release), Advance(id, Fine(0)),
         Stopping(GivenBack(c, s, w), id, ref, k, StopCommit(a, snap, tree)));
  }

  function Down(s: Sys, ref: ActorRef, k: Kind, snap: SnapshotRef, tree: Tree, at: Time): Sys
    requires ref in s.actors
  {
    s.(actors := s.actors[ref := Next(Stopped(k, s.actors[ref], snap), at)],
       disk := s.disk.(saved := s.disk.saved[ref := tree]))
  }

  lemma Commits(c: Config, o: Sys, s: Sys, id: TaskId, ref: ActorRef, k: Kind, snap: SnapshotRef, tree: Tree, at: Time)
    requires ref in s.actors && s.actors[ref].Ref() == ref
    requires Leads(c, o, Stopping(s, id, ref, k, StopCommit(s.actors[ref], snap, tree)))
    ensures Leads(c, o, End(Down(s, ref, k, snap, tree, at), id, ref))
  {
    var a := s.actors[ref];
    Again(Down(s, ref, k, snap, tree, at), id, Stop(ref, k, StopCommit(a, snap, tree)), Ended(ref));
    Then(c, o, Stopping(s, id, ref, k, StopCommit(a, snap, tree)), Advance(id, Fine(at)),
         End(Down(s, ref, k, snap, tree, at), id, ref));
  }

  // The whole of a suspend or pause.
  function WentDown(c: Config, s: Sys, ref: ActorRef, k: Kind, w: Worker, snap: SnapshotRef, at: Time): Sys
    requires ref in s.actors
  {
    var q := Saved(FlippedDown(s, ref, k, at), w, snap);
    Down(GivenBack(c, Unbound(q, ref), w), ref, k, snap, TreeOf(s.disk, w), at)
  }

  lemma GivenBackKeeps(c: Config, s: Sys, w: Worker)
    ensures var q := GivenBack(c, s, w); q == s.(reg := q.reg)
  {
  }

  lemma GoesDown(c: Config, o: Sys, s: Sys, id: TaskId, ref: ActorRef, k: Kind, w: Worker, snap: SnapshotRef, at: Time)
    requires Leads(c, o, s) && CanStop(s, ref) && id !in s.tasks && snap !in s.disk.snapshots
    requires s.actors[ref].assignment.value.workerId == w.workerId && s.reg.workers[w.workerId] == w && w.sandbox.Some?
    ensures Leads(c, o, End(WentDown(c, s, ref, k, w, snap, at), id, ref))
  {
    var f, tree := FlippedDown(s, ref, k, at), TreeOf(s.disk, w);
    var u := Unbound(Saved(f, w, snap), ref);
    FlipsDown(c, o, s, id, ref, k, at);
    Fetches(c, o, f, id, ref, k, w.workerId);
    SavesTree(c, o, f, id, ref, k, w, snap);
    UnbindsActor(c, o, Saved(f, w, snap), id, ref, k, f.actors[ref], w, snap, tree);
    GivesBack(c, o, u, id, ref, k, f.actors[ref], w, snap, tree);
    GivenBackKeeps(c, u, w);
    Commits(c, o, GivenBack(c, u, w), id, ref, k, snap, tree, at);
  }

  // ---- a crash ----

  function Crashed(s: Sys, ref: ActorRef, at: Time): Sys
    requires ref in s.actors
  {
    Unbound(s, ref).(actors := s.actors[ref := Next(WithStatus(s.actors[ref], CRASHED).(assignment := None), at)])
  }

  // mark_crashed, up to its write.
  lemma UnroutesForCrash(c: Config, o: Sys, s: Sys, id: TaskId, ref: ActorRef)
    requires Leads(c, o, s) && id !in s.tasks && ref in s.actors
    ensures Leads(c, o, Goto(Unbound(s, ref), id, Crash(ref, CrashCommit(s.actors[ref]))))
  {
    var a := s.actors[ref];
    Then(c, o, s, Begin(id, Crash(ref, CrashRead)), Goto(s, id, Crash(ref, CrashRead)));
    Again(s, id, Crash(ref, CrashRead), Crash(ref, CrashUnbind(a)));
    Then(c, o, Goto(s, id, Crash(ref, CrashRead)), Advance(id, Fine(0)), Goto(s, id, Crash(ref, CrashUnbind(a))));
    Again(Unbound(s, ref), id, Crash(ref, CrashUnbind(a)), Crash(ref, CrashCommit(a)));
    Then(c, o, Goto(s, id, Crash(ref, CrashUnbind(a))), Advance(id, Fine(0)),
         Goto(Unbound(s, ref), id, Crash(ref, CrashCommit(a))));
  }

  lemma Crashes(c: Config, o: Sys, s: Sys, id: TaskId, ref: ActorRef, at: Time)
    requires Leads(c, o, s) && id !in s.tasks && ref in s.actors && s.actors[ref].Ref() == ref
    ensures Leads(c, o, End(Crashed(s, ref, at), id, ref))
  {
    var a := s.actors[ref];
    UnroutesForCrash(c, o, s, id, ref);
    Again(Crashed(s, ref, at), id, Crash(ref, CrashCommit(a)), Ended(ref));
    Then(c, o, Goto(Unbound(s, ref), id, Crash(ref, CrashCommit(a))), Advance(id, Fine(at)),
         End(Crashed(s, ref, at), id, ref));
  }
}
