// Where a paused actor comes back.
module Locality {
  import opened Wrappers
  import opened Model
  import opened Stores
  import opened WorkerPoolModel
  import opened OrchestratorModel
  import opened ActorSafety
  import opened WorkerSafety
  import opened OrchestratorTheorems
  import P = PoolModel

  // ---- all workers of one process are on its node ----

  ghost predicate AtHome(c: Config, r: Registry) {
    forall id :: id in r.workers ==> r.workers[id].node == c.node
  }

  predicate RecordAtHome(c: Config, a: Actor) {
    a.assignment.Some? ==> a.assignment.value.node == c.node
  }

  // Registered workers and the assignments of actors are on the pool's node.
  ghost predicate HomeInv(c: Config, s: Sys) {
    AtHome(c, s.reg) && forall ref :: ref in s.actors ==> RecordAtHome(c, s.actors[ref])
  }

  lemma EffectKeepsHome(c: Config, r: Registry, e: RegEffect)
    requires AtHome(c, r) && RegLegal(r, e) && (e.Added? ==> e.worker.node == c.node)
    ensures AtHome(c, RegAfter(r, e))
  {
  }

  lemma WorkersStayHome(c: Config, s: Sys, e: Event)
    requires Inv(c, s) && AtHome(c, s.reg) && Apply(c, s, e).Some?
    ensures AtHome(c, Apply(c, s, e).value.reg)
  {
    match e
    case Advance(id, choice) =>
      var effect := StepAdvances(c, s, id, choice);
      EffectKeepsHome(c, s.reg, effect);
    case SweepWarm(order) => SweepShrinks(c, s.reg, order);
    case _ => EventWorkerEdges(c, s, e);
  }

  // ---- what a pause writes ----

  predicate Names(a: Actor, node: string) {
    PAUSE_NODE in a.selector && a.selector[PAUSE_NODE] == node
  }

  // No other node was named before.
  predicate Free(a: Actor, node: string) {
    PAUSE_NODE in a.selector ==> a.selector[PAUSE_NODE] == node
  }

  // The node named once the actor has paused on `node`.
  function NamedBy(a: Actor, node: string): string {
    if PAUSE_NODE in a.selector then a.selector[PAUSE_NODE] else node
  }

  // A worker on the node that the record names.
  function Willing(tm: Template, a: Actor): Worker {
    var cs := ConstraintsFor(tm, a);
    Worker(0, ACTIVE, tm.sandboxClass, 1, None, cs.templateSelector, cs.requiredNode, Some(1))
  }

  // Whatever workers there are, a resume after a pause picks on the paused
  // node only; exactly if no other node was named before.
  lemma PausePinsIff(tm: Template, a: Actor, saved: SnapshotRef, node: string)
    requires a.assignment.Some? && a.assignment.value.node == Some(node) && node != ""
    ensures (forall m: Workers, w :: Eligible(m, ConstraintsFor(tm, Stopped(Pause, a, saved)), w) ==>
                                       m[w].node == Some(node))
      <==> Free(a, node)
  {
    var cs := ConstraintsFor(tm, Stopped(Pause, a, saved));
    if !Free(a, node) {
      var m: Workers := map[0 := Willing(tm, Stopped(Pause, a, saved))];
      assert Eligible(m, cs, 0) && m[0].node != Some(node);
    }
  }

  // ---- what a step writes about places ----

  // A named node stays named, and a new assignment is on the pool's node.
  predicate KeepsPlace(c: Config, before: Actors, after: Actors, ref: ActorRef) {
    ref in after ==>
      && (ref in before && PAUSE_NODE in before[ref].selector ==> after[ref].selector == before[ref].selector)
      && ((ref in before && after[ref].assignment == before[ref].assignment) || RecordAtHome(c, after[ref]))
  }

  lemma FinalizeKeepsPlace(c: Config, s: Sys, id: TaskId, ref: ActorRef, tm: Template, a: Actor, w: Worker, at: Time)
    requires Ready(s, Resume(ref, Setup(tm, a, w, Finalize))) && w.node == c.node
    ensures KeepsPlace(c, s.actors, StepFinalize(s, id, ref, a, w, at).actors, ref)
  {
    PutCases(s.actors, ref, a, WithStatus(a, RUNNING).(assignment := Some(AssignmentFor(ref, w, at))), at);
  }

  lemma ResumeKeepsPlace(c: Config, s: Sys, id: TaskId, ref: ActorRef, st: ResumeStage, ch: Choice)
    requires Ready(s, Resume(ref, st)) && TaskWorkerOk(s.reg, Resume(ref, st)) && AtHome(c, s.reg)
    ensures var q := StepResume(c, s, id, ref, st, ch); q.Some? ==> KeepsPlace(c, s.actors, q.value.actors, ref)
  {
    if st.Flip? {
      PutCases(s.actors, ref, st.actor, WithStatus(st.actor, RESUMING), ch.at);
    } else if st.Setup? && st.setup.Finalize? {
      FinalizeKeepsPlace(c, s, id, ref, st.template, st.actor, st.worker, ch.at);
    } else {
      ResumeWritesNothing(c, s, id, ref, st, ch);
    }
  }

  lemma ResumeWritesNothing(c: Config, s: Sys, id: TaskId, ref: ActorRef, st: ResumeStage, ch: Choice)
    requires !st.Flip? && !(st.Setup? && st.setup.Finalize?)
    ensures var q := StepResume(c, s, id, ref, st, ch); q.Some? ==> q.value.actors == s.actors
  {
    match st
    case Claiming(tm, a, attempt, claim) =>
    case Setup(tm, a, w, setup) =>
    case _ =>
  }

  lemma StopKeepsPlace(c: Config, s: Sys, id: TaskId, ref: ActorRef, k: Kind, st: StopStage, ch: Choice)
    requires Ready(s, Stop(ref, k, st))
    ensures var q := StepStop(c, s, id, ref, k, st, ch); q.Some? ==> KeepsPlace(c, s.actors, q.value.actors, ref)
  {
    match st
    case StopFlip(a) => PutCases(s.actors, ref, a, WithStatus(a, StopTransient(k)), ch.at);
    case StopCommit(a, saved, _) => PutCases(s.actors, ref, a, Stopped(k, a, saved), ch.at);
    case _ =>
  }

  lemma CrashKeepsPlace(c: Config, s: Sys, id: TaskId, ref: ActorRef, st: CrashStage, ch: Choice)
    requires Ready(s, Crash(ref, st))
    ensures KeepsPlace(c, s.actors, StepCrash(s, id, ref, st, ch).actors, ref)
  {
    if st.CrashCommit? {
      PutCases(s.actors, ref, st.actor, WithStatus(st.actor, CRASHED).(assignment := None), ch.at);
    }
  }

  lemma DeleteKeepsPlace(c: Config, s: Sys, id: TaskId, ref: ActorRef, st: DeleteStage, ch: Choice)
    requires Ready(s, Delete(ref, st))
    ensures KeepsPlace(c, s.actors, StepDelete(s, id, ref, st, ch).actors, ref)
  {
    if st.DeleteFlip? {
      PutCases(s.actors, ref, st.actor, WithStatus(st.actor, DELETING), ch.at);
    }
  }

  lemma AdvanceKeepsPlace(c: Config, s: Sys, id: TaskId, ch: Choice, ref: ActorRef)
    requires id in s.tasks && Ready(s, s.tasks[id]) && TaskWorkerOk(s.reg, s.tasks[id]) && AtHome(c, s.reg)
    requires Step(c, s, id, ch).Some?
    ensures KeepsPlace(c, s.actors, Step(c, s, id, ch).value.actors, ref)
  {
    if ref != s.tasks[id].ref {
      var effect := StepLegal(c, s, id, ch);
    } else {
      match s.tasks[id]
      case Resume(_, st) => ResumeKeepsPlace(c, s, id, ref, st, ch);
      case Stop(_, k, st) => StopKeepsPlace(c, s, id, ref, k, st, ch);
      case Crash(_, st) => CrashKeepsPlace(c, s, id, ref, st, ch);
      case Delete(_, st) => DeleteKeepsPlace(c, s, id, ref, st, ch);
      case Ended(_) =>
    }
  }

  lemma EventKeepsPlace(c: Config, s: Sys, e: Event, ref: ActorRef)
    requires Apply(c, s, e).Some? && !e.Advance?
    ensures KeepsPlace(c, s.actors, Apply(c, s, e).value.actors, ref)
  {
  }

  lemma StepKeepsPlace(c: Config, s: Sys, e: Event, ref: ActorRef)
    requires Inv(c, s) && AtHome(c, s.reg) && Apply(c, s, e).Some?
    ensures KeepsPlace(c, s.actors, Apply(c, s, e).value.actors, ref)
  {
    if e.Advance? {
      AdvanceKeepsPlace(c, s, e.id, e.choice, ref);
    } else {
      EventKeepsPlace(c, s, e, ref);
    }
  }

  lemma StepKeepsHome(c: Config, s: Sys, e: Event)
    requires Inv(c, s) && HomeInv(c, s) && Apply(c, s, e).Some?
    ensures HomeInv(c, Apply(c, s, e).value)
  {
    WorkersStayHome(c, s, e);
    var q := Apply(c, s, e).value;
    forall ref | ref in q.actors
      ensures RecordAtHome(c, q.actors[ref])
    {
      StepKeepsPlace(c, s, e, ref);
    }
  }

  lemma {:induction false} RunKeepsHome(c: Config, s: Sys, es: seq<Event>)
    requires Inv(c, s) && HomeInv(c, s) && Run(c, s, es).Some?
    ensures HomeInv(c, Run(c, s, es).value)
  {
    if es == [] {
    } else {
      var front := es[..|es| - 1];
      RunKeepsHome(c, s, front);
      RunInv(c, s, front);
      StepKeepsHome(c, Run(c, s, front).value, es[|es| - 1]);
    }
  }

  // Every worker, and every actor that has one, is on the node of the pool.
  lemma AllAtHome(c: Config, s: Sys)
    requires P.ValidConfig(c.pool) && Reachable(c, s)
    ensures HomeInv(c, s)
  {
    var golden, now, es :| Run(c, Init(golden, now), es) == Some(s);
    InitInv(c, golden, now);
    RunKeepsHome(c, Init(golden, now), es);
  }

  // ---- a named node stays named ----

  // The actor's record is not removed during the run.
  predicate Lasts(c: Config, s: Sys, es: seq<Event>, ref: ActorRef)
    requires Run(c, s, es).Some?
  {
    ref in Run(c, s, es).value.actors && (es != [] ==> Lasts(c, s, es[..|es| - 1], ref))
  }

  // A node once named is never replaced while the record lasts.
  lemma {:induction false} NodeIsKept(c: Config, s: Sys, es: seq<Event>, ref: ActorRef, node: string)
    requires Inv(c, s) && HomeInv(c, s) && Run(c, s, es).Some? && Lasts(c, s, es, ref)
    requires ref in s.actors && Names(s.actors[ref], node)
    ensures Names(Run(c, s, es).value.actors[ref], node)
  {
    if es == [] {
    } else {
      var front, e := es[..|es| - 1], es[|es| - 1];
      NodeIsKept(c, s, front, ref, node);
      RunInv(c, s, front);
      RunKeepsHome(c, s, front);
      StepKeepsPlace(c, Run(c, s, front).value, e, ref);
    }
  }

  // ---- and decides what the next resume picks ----

  // What the actor asks for, but for the node.
  function Anywhere(tm: Template, a: Actor): Constraints {
    ConstraintsFor(tm, a).(requiredNode := None)
  }

  // Among workers that are all on one node, a named node admits all or none.
  lemma NamedAdmitsIff(c: Config, m: Workers, tm: Template, a: Actor, node: string, w: WorkerId)
    requires Names(a, node) && (forall id :: id in m ==> m[id].node == c.node)
    ensures Eligible(m, ConstraintsFor(tm, a), w) <==> c.node == Some(node) && Eligible(m, Anywhere(tm, a), w)
  {
  }

  // The write that finishes a pause, accepted.
  lemma CommitNames(s: Sys, id: TaskId, ref: ActorRef, a: Actor, saved: SnapshotRef, tree: Tree, at: Time, node: string)
    requires CopyOk(s.actors, ref, a) && ref in s.actors && s.actors[ref].version == a.version
    requires a.assignment.Some? && a.assignment.value.node == Some(node) && node != ""
    ensures var q := StepStopCommit(s, id, ref, Pause, a, saved, tree, at);
      ref in q.actors && Names(q.actors[ref], NamedBy(a, node))
  {
    PutCases(s.actors, ref, a, Stopped(Pause, a, saved), at);
  }

  // Task id is about to write the final record of a pause on the node, which
  // will be accepted.
  predicate Pauses(s: Sys, id: TaskId, ref: ActorRef, node: string) {
    && id in s.tasks && s.tasks[id].Stop? && s.tasks[id].ref == ref && s.tasks[id].kind.Pause?
    && s.tasks[id].stop.StopCommit?
    && ref in s.actors && s.actors[ref].version == s.tasks[id].stop.actor.version
    && s.actors[ref].assignment.Some? && s.actors[ref].assignment.value.node == Some(node) && node != ""
  }

  lemma PauseNames(c: Config, s: Sys, id: TaskId, ch: Choice, ref: ActorRef, node: string)
    requires Inv(c, s) && Pauses(s, id, ref, node)
    ensures var a, q := s.actors[ref], Step(c, s, id, ch);
      && q.Some? && ref in q.value.actors
      && Names(q.value.actors[ref], NamedBy(a, node))
  {
    assert TaskActorOk(s.actors, s.tasks[id]);
    var st := s.tasks[id].stop;
    CommitNames(s, id, ref, st.actor, st.saved, st.tree, ch.at, node);
  }

  lemma AfterPause(c: Config, s: Sys, pause: TaskId, pch: Choice, ref: ActorRef, node: string, q: Sys)
    requires Reachable(c, s) && Inv(c, s) && Pauses(s, pause, ref, node)
    requires Apply(c, s, Advance(pause, pch)) == Some(q)
    ensures Reachable(c, q) && ref in q.actors && Names(q.actors[ref], NamedBy(s.actors[ref], node))
  {
    ReachableStep(c, s, Advance(pause, pch), q);
    PauseNames(c, s, pause, pch, ref, node);
  }

  // However long after a pause, and whoever else runs in between, while the
  // record lasts: if no other node was named before the pause, its node keeps
  // no idle worker from being picked; otherwise none can be picked at all,
  // though all of them are on the node of the pause.
  lemma PauseReturnsIff(c: Config, s: Sys, pause: TaskId, pch: Choice, es: seq<Event>, ref: ActorRef, node: string,
                        tm: Template, w: WorkerId)
    requires P.ValidConfig(c.pool) && Reachable(c, s) && Pauses(s, pause, ref, node)
    requires var q := Apply(c, s, Advance(pause, pch));
      q.Some? && Run(c, q.value, es).Some? && Lasts(c, q.value, es, ref)
    ensures var r := Run(c, Apply(c, s, Advance(pause, pch)).value, es).value;
      && c.node == Some(node) && AtHome(c, r.reg)
      && (Eligible(r.reg.workers, ConstraintsFor(tm, r.actors[ref]), w) <==>
            Free(s.actors[ref], node) && Eligible(r.reg.workers, Anywhere(tm, r.actors[ref]), w))
  {
    AlwaysInv(c, s);
    AllAtHome(c, s);
    var q := Apply(c, s, Advance(pause, pch)).value;
    AfterPause(c, s, pause, pch, ref, node, q);
    StepInv(c, s, Advance(pause, pch));
    AllAtHome(c, q);
    NodeIsKept(c, q, es, ref, NamedBy(s.actors[ref], node));
    ReachableRun(c, q, es);
    var r := Run(c, q, es).value;
    AllAtHome(c, r);
    NamedAdmitsIff(c, r.reg.workers, tm, r.actors[ref], NamedBy(s.actors[ref], node), w);
  }

  // The resume of task id is about to look for a worker.
  predicate Picking(s: Sys, id: TaskId, ref: ActorRef) {
    && id in s.tasks && s.tasks[id].Resume? && s.tasks[id].ref == ref
    && s.tasks[id].resume.Claiming? && s.tasks[id].resume.claim.Acquire?
    && ref in s.actors && s.actors[ref].status.RESUMING?
  }

  predicate Waits(t: Task) {
    t.Resume? && t.resume.Claiming? && t.resume.claim.Wait?
  }

  // An actor that names another node than the pool's always waits for a sandbox
  // from the pool, whatever workers are idle.
  lemma NamedElsewhereWaits(c: Config, s: Sys, id: TaskId, ch: Choice, ref: ActorRef, node: string)
    requires P.ValidConfig(c.pool) && Reachable(c, s) && Picking(s, id, ref)
    requires Names(s.actors[ref], node) && Some(node) != c.node
    requires Step(c, s, id, ch).Some? && s.tasks[id].resume.attempt < MAX_CLAIM_RETRIES
    ensures Waits(Step(c, s, id, ch).value.tasks[id]) && Step(c, s, id, ch).value.reg.warm == s.reg.warm
  {
    LeaderIsCurrent(c, s, id);
    AllAtHome(c, s);
    NamedAdmitsIff(c, s.reg.workers, s.tasks[id].resume.template, s.actors[ref], node, ch.pick);
  }
}
