// An unclaimed worker is in the warm-idle registry, unless a resume that took
// it out (or registered it) is just about to claim it.
module IdleSafety {
  import opened Wrappers
  import opened Model
  import opened Stores
  import opened WorkerPoolModel
  import opened OrchestratorModel
  import opened ActorSafety
  import opened WorkerSafety
  import P = PoolModel

  // The task is about to claim exactly this record.
  predicate Claims(t: Task, w: Worker) {
    t.Resume? && t.resume.Claiming? && t.resume.claim.Claim? && t.resume.claim.worker == w
  }

  ghost predicate Claimable(tasks: map<TaskId, Task>, w: Worker) {
    exists id :: id in tasks && Claims(tasks[id], w)
  }

  // Worker id is unclaimed and outside the warm registry.
  predicate Loose(r: Registry, id: WorkerId) {
    id in r.workers && r.workers[id].assignment.None? && id !in r.warm
  }

  ghost predicate IdleInv(s: Sys) {
    forall id :: Loose(s.reg, id) ==> Claimable(s.tasks, s.reg.workers[id])
  }

  // A step whose task does not claim, and whose effect makes no worker loose.
  lemma KeepsIdle(c: Config, s: Sys, id: TaskId, q: Sys, e: RegEffect)
    requires IdleInv(s) && id in s.tasks && Advances(c, s, id, q, e)
    requires !e.Popped? && !e.Added?
    requires forall w :: w in s.reg.workers && Claims(s.tasks[id], s.reg.workers[w]) ==>
      w in q.reg.workers && q.reg.workers[w].assignment.Some?
    ensures IdleInv(q)
  {
    forall w | Loose(q.reg, w)
      ensures Claimable(q.tasks, q.reg.workers[w])
    {
      assert Loose(s.reg, w) && q.reg.workers[w] == s.reg.workers[w];
      var i :| i in s.tasks && Claims(s.tasks[i], s.reg.workers[w]);
      assert i in q.tasks && Claims(q.tasks[i], q.reg.workers[w]);
    }
  }

  // A step after which the task claims the one worker it made loose.
  lemma TakesIdle(c: Config, s: Sys, id: TaskId, q: Sys, e: RegEffect, w: Worker)
    requires IdleInv(s) && id in s.tasks && Advances(c, s, id, q, e)
    requires !s.tasks[id].Resume? || !s.tasks[id].resume.Claiming? || !s.tasks[id].resume.claim.Claim?
    requires Claims(q.tasks[id], w)
    requires w.workerId in q.reg.workers && q.reg.workers[w.workerId] == w
    requires (e.Popped? && e.id == w.workerId) || (e.Added? && e.worker == w)
    ensures IdleInv(q)
  {
    forall x | Loose(q.reg, x)
      ensures Claimable(q.tasks, q.reg.workers[x])
    {
      if x == w.workerId {
        assert id in q.tasks && Claims(q.tasks[id], q.reg.workers[x]);
      } else {
        assert Loose(s.reg, x) && q.reg.workers[x] == s.reg.workers[x];
        var i :| i in s.tasks && Claims(s.tasks[i], s.reg.workers[x]);
        assert i in q.tasks && Claims(q.tasks[i], q.reg.workers[x]);
      }
    }
  }

  lemma AcquireIdle(c: Config, s: Sys, id: TaskId, ref: ActorRef, tm: Template, a: Actor, attempt: nat, pick: WorkerId)
    requires IdleInv(s) && ReadyToStep(s, id, Resume(ref, Claiming(tm, a, attempt, Acquire)))
    requires StepAcquire(c, s, id, ref, tm, a, attempt, pick).Some?
    ensures IdleInv(StepAcquire(c, s, id, ref, tm, a, attempt, pick).value)
  {
    var q := StepAcquire(c, s, id, ref, tm, a, attempt, pick).value;
    var e := AcquireAdvance(c, s, id, ref, tm, a, attempt, pick);
    if e.Popped? {
      TakesIdle(c, s, id, q, e, s.reg.workers[pick]);
    } else {
      KeepsIdle(c, s, id, q, e);
    }
  }

  lemma WaitIdle(c: Config, s: Sys, id: TaskId, ref: ActorRef, tm: Template, a: Actor, attempt: nat)
    requires IdleInv(s) && ReadyToStep(s, id, Resume(ref, Claiming(tm, a, attempt, Wait)))
    requires StepWait(c, s, id, ref, tm, a, attempt).Some?
    ensures IdleInv(StepWait(c, s, id, ref, tm, a, attempt).value)
  {
    var q := StepWait(c, s, id, ref, tm, a, attempt).value;
    WaitQuiet(c, s, id, ref, tm, a, attempt);
    QuietAdvances(c, s, id, q);
    KeepsIdle(c, s, id, q, Untouched);
  }

  lemma RegisterIdle(c: Config, s: Sys, id: TaskId, ref: ActorRef, tm: Template, a: Actor, attempt: nat,
                     sb: P.Sandbox, unused: WorkerId, kind: string)
    requires IdleInv(s) && ReadyToStep(s, id, Resume(ref, Claiming(tm, a, attempt, ClaimStage.Register(sb))))
    requires StepRegister(c, s, id, ref, tm, a, attempt, sb, unused, kind).Some?
    ensures IdleInv(StepRegister(c, s, id, ref, tm, a, attempt, sb, unused, kind).value)
  {
    RegisterAdvance(c, s, id, ref, tm, a, attempt, sb, unused, kind);
    var w := NewWorker(c, unused, kind, sb);
    TakesIdle(c, s, id, StepRegister(c, s, id, ref, tm, a, attempt, sb, unused, kind).value, Added(w), w);
  }

  // A claim through an exact copy of the record succeeds.
  lemma ExactClaimWins(s: Sys, id: TaskId, ref: ActorRef, tm: Template, a: Actor, attempt: nat, w: Worker, at: Time)
    requires w.workerId in s.reg.workers && s.reg.workers[w.workerId] == w && w.IsIdle()
    ensures var q := StepClaim(s, id, ref, tm, a, attempt, w, at);
      w.workerId in q.reg.workers && q.reg.workers[w.workerId].assignment.Some?
  {
  }

  lemma ClaimIdle(c: Config, s: Sys, id: TaskId, ref: ActorRef, tm: Template, a: Actor, attempt: nat, w: Worker,
                  at: Time)
    requires IdleInv(s) && ReadyToStep(s, id, Resume(ref, Claiming(tm, a, attempt, Claim(w))))
    ensures IdleInv(StepClaim(s, id, ref, tm, a, attempt, w, at))
  {
    var q := StepClaim(s, id, ref, tm, a, attempt, w, at);
    var e := ClaimAdvance(c, s, id, ref, tm, a, attempt, w, at);
    if w.workerId in s.reg.workers && s.reg.workers[w.workerId] == w {
      ExactClaimWins(s, id, ref, tm, a, attempt, w, at);
    }
    KeepsIdle(c, s, id, q, e);
  }

  lemma DrainIdle(c: Config, s: Sys, id: TaskId, ref: ActorRef, tm: Template, a: Actor, attempt: nat, w: Worker,
                  alive: bool)
    requires IdleInv(s) && ReadyToStep(s, id, Resume(ref, Claiming(tm, a, attempt, Drain(w))))
    ensures IdleInv(StepDrain(c, s, id, ref, tm, a, attempt, w, alive))
  {
    var q := StepDrain(c, s, id, ref, tm, a, attempt, w, alive);
    DrainQuiet(c, s, id, ref, tm, a, attempt, w, alive);
    QuietAdvances(c, s, id, q);
    KeepsIdle(c, s, id, q, Untouched);
  }

  lemma ClaimingIdle(c: Config, s: Sys, id: TaskId, ref: ActorRef, tm: Template, a: Actor, attempt: nat,
                     st: ClaimStage, ch: Choice)
    requires IdleInv(s) && ReadyToStep(s, id, Resume(ref, Claiming(tm, a, attempt, st)))
    requires Step(c, s, id, ch).Some?
    ensures IdleInv(Step(c, s, id, ch).value)
  {
    match st
    case Acquire => AcquireIdle(c, s, id, ref, tm, a, attempt, ch.pick);
    case Wait => WaitIdle(c, s, id, ref, tm, a, attempt);
    case Register(sb) => RegisterIdle(c, s, id, ref, tm, a, attempt, sb, ch.worker, ch.kind);
    case Claim(w) => ClaimIdle(c, s, id, ref, tm, a, attempt, w, ch.at);
    case Drain(w) => DrainIdle(c, s, id, ref, tm, a, attempt, w, ch.alive);
  }

  lemma ResumeIdle(c: Config, s: Sys, id: TaskId, ref: ActorRef, st: ResumeStage, ch: Choice)
    requires IdleInv(s) && ReadyToStep(s, id, Resume(ref, st)) && Step(c, s, id, ch).Some?
    ensures IdleInv(Step(c, s, id, ch).value)
  {
    match st
    case Claiming(tm, a, attempt, claim) => ClaimingIdle(c, s, id, ref, tm, a, attempt, claim, ch);
    case Setup(tm, a, w, setup) =>
      SetupAdvance(c, s, id, ref, tm, a, w, setup, ch);
      KeepsIdle(c, s, id, Step(c, s, id, ch).value, Untouched);
    case _ =>
      OutsideAdvance(c, s, id, ref, st, ch);
      KeepsIdle(c, s, id, Step(c, s, id, ch).value, Untouched);
  }

  lemma StopIdle(c: Config, s: Sys, id: TaskId, ref: ActorRef, k: Kind, st: StopStage, ch: Choice)
    requires IdleInv(s) && ReadyToStep(s, id, Stop(ref, k, st)) && Step(c, s, id, ch).Some?
    ensures IdleInv(Step(c, s, id, ch).value)
  {
    if st.Holding? && st.hold.Release? {
      var e := ReleaseAdvance(c, s, id, ref, k, st.actor, st.hold.worker, st.hold.saved, st.hold.tree, ch.alive);
      assert !e.Popped? && !e.Added?;
      KeepsIdle(c, s, id, Step(c, s, id, ch).value, e);
    } else {
      KeepingAdvance(c, s, id, ref, k, st, ch);
      KeepsIdle(c, s, id, Step(c, s, id, ch).value, Untouched);
    }
  }

  lemma AdvanceIdle(c: Config, s: Sys, id: TaskId, ch: Choice)
    requires IdleInv(s) && id in s.tasks && ReadyToStep(s, id, s.tasks[id]) && Step(c, s, id, ch).Some?
    ensures IdleInv(Step(c, s, id, ch).value)
  {
    match s.tasks[id]
    case Resume(ref, st) => ResumeIdle(c, s, id, ref, st, ch);
    case Stop(ref, k, st) => StopIdle(c, s, id, ref, k, st, ch);
    case Ended(_) =>
    case _ =>
      EndingAdvance(c, s, id, ch);
      KeepsIdle(c, s, id, Step(c, s, id, ch).value, Untouched);
  }

  // A sweep tick takes exactly the workers it retires off the registry.
  lemma SweepIdle(c: Config, s: Sys, order: seq<WorkerId>)
    requires WorkerInv(c, s) && IdleInv(s) && IsSweepOrder(c, s.reg, order)
    ensures IdleInv(s.(reg := WorkerPoolModel.SweepWarm(c, s.reg, order)))
  {
    var r1 := s.reg.(warm := s.reg.warm - (set id | id in order));
    RetireAllTable(c, r1, order);
    var r' := WorkerPoolModel.SweepWarm(c, s.reg, order);
    forall w | Loose(r', w)
      ensures Claimable(s.tasks, r'.workers[w])
    {
      assert w !in order && w !in r1.warm;
      assert Loose(s.reg, w);
    }
  }

  lemma BeginIdle(s: Sys, id: TaskId, t: Task)
    requires IdleInv(s) && id !in s.tasks
    ensures IdleInv(Goto(s, id, t))
  {
    forall w | Loose(s.reg, w)
      ensures Claimable(s.tasks[id := t], s.reg.workers[w])
    {
      var i :| i in s.tasks && Claims(s.tasks[i], s.reg.workers[w]);
      assert i in s.tasks[id := t] && Claims(s.tasks[id := t][i], s.reg.workers[w]);
    }
  }

  lemma IdleStep(c: Config, s: Sys, e: Event)
    requires ActorInv(s.actors, s.tasks) && WorkerInv(c, s) && IdleInv(s) && Apply(c, s, e).Some?
    ensures IdleInv(Apply(c, s, e).value)
  {
    match e
    case Begin(id, task) => BeginIdle(s, id, task);
    case Advance(id, choice) => AdvanceIdle(c, s, id, choice);
    case SweepWarm(order) => SweepIdle(c, s, order);
    case PoolStep(event) => assert forall w :: Loose(Apply(c, s, e).value.reg, w) <==> Loose(s.reg, w);
    case _ =>
  }
}
