// When actors are routed.  A binding appears when its actor becomes RUNNING;
// it can go while the actor is RUNNING, and stay when the actor no longer is.
module Routing {
  import opened Wrappers
  import opened Model
  import opened Stores
  import opened WorkerPoolModel
  import opened OrchestratorModel
  import opened ActorSafety
  import opened RouterSafety
  import opened OrchestratorTheorems
  import P = PoolModel

  // The step unbinds the actor: a suspend or pause before it releases the
  // worker, a crash before its write, or the removal of the record.
  predicate Unbinds(s: Sys, e: Event, ref: ActorRef) {
    && e.Advance? && e.id in s.tasks && s.tasks[e.id].ref == ref
    && match s.tasks[e.id]
       case Stop(_, _, Holding(_, st)) => st.Unbind?
       case Crash(_, st) => st.CrashUnbind?
       case Delete(_, st) => st.DeleteErase?
       case _ => false
  }

  // The first flip of a suspend or pause.
  predicate Stops(s: Sys, e: Event, ref: ActorRef) {
    e.Advance? && e.id in s.tasks && s.tasks[e.id].ref == ref && s.tasks[e.id].Stop? && s.tasks[e.id].stop.StopFlip?
  }

  // What one event does to the actor's binding.
  predicate Routes(s: Sys, e: Event, q: Sys, ref: ActorRef) {
    && (ref in s.bindings ==> (ref !in q.bindings <==> Unbinds(s, e, ref)))
    && (ref !in s.bindings ==> (ref in q.bindings <==> Running(q, ref) && !Running(s, ref)))
  }

  lemma FinalizeRoutes(c: Config, s: Sys, id: TaskId, ref: ActorRef, tm: Template, a: Actor, w: Worker, ch: Choice)
    requires id in s.tasks && s.tasks[id] == Resume(ref, Setup(tm, a, w, Finalize)) && Routable(s, s.tasks[id])
    ensures Routes(s, Advance(id, ch), StepFinalize(s, id, ref, a, w, ch.at), ref)
  {
    PutCases(s.actors, ref, a, WithStatus(a, RUNNING).(assignment := Some(AssignmentFor(ref, w, ch.at))), ch.at);
  }

  lemma FlipRoutes(c: Config, s: Sys, id: TaskId, ref: ActorRef, tm: Template, a: Actor, ch: Choice)
    requires id in s.tasks && s.tasks[id] == Resume(ref, Flip(tm, a)) && Routable(s, s.tasks[id])
    ensures Routes(s, Advance(id, ch), StepFlip(s, id, ref, tm, a, ch.at), ref)
  {
    PutCases(s.actors, ref, a, WithStatus(a, RESUMING), ch.at);
  }

  lemma ResumeRoutes(c: Config, s: Sys, id: TaskId, ref: ActorRef, st: ResumeStage, ch: Choice)
    requires id in s.tasks && s.tasks[id] == Resume(ref, st) && Routable(s, s.tasks[id])
    ensures var q := StepResume(c, s, id, ref, st, ch); q.Some? ==> Routes(s, Advance(id, ch), q.value, ref)
  {
    if st.Flip? {
      FlipRoutes(c, s, id, ref, st.template, st.actor, ch);
    } else if st.Setup? && st.setup.Finalize? {
      FinalizeRoutes(c, s, id, ref, st.template, st.actor, st.worker, ch);
    } else if st.Claiming? {
      if st.claim.Claim? || st.claim.Drain? {
        ClaimSilent(c, s, id, ref, st.template, st.actor, st.attempt, st.claim, ch);
      } else {
        ClaimingSilent(c, s, id, ref, st.template, st.actor, st.attempt, st.claim, ch);
      }
    } else if st.Setup? {
      SetupSilent(s, id, ref, st.template, st.actor, st.worker, st.setup, ch);
    } else {
      ReadsSilent(s, id, ref, st);
    }
  }

  lemma HoldRoutes(c: Config, s: Sys, id: TaskId, ref: ActorRef, k: Kind, a: Actor, st: HoldStage, ch: Choice)
    requires id in s.tasks && s.tasks[id] == Stop(ref, k, Holding(a, st)) && Routable(s, s.tasks[id])
    ensures var q := StepHolding(c, s, id, ref, k, a, st, ch); q.Some? ==> Routes(s, Advance(id, ch), q.value, ref)
  {
  }

  lemma StopRoutes(c: Config, s: Sys, id: TaskId, ref: ActorRef, k: Kind, st: StopStage, ch: Choice)
    requires id in s.tasks && s.tasks[id] == Stop(ref, k, st) && Routable(s, s.tasks[id])
    ensures var q := StepStop(c, s, id, ref, k, st, ch); q.Some? ==> Routes(s, Advance(id, ch), q.value, ref)
  {
    match st
    case StopRead => StopReadSilent(s, id, ref, k);
    case StopFlip(a) => PutCases(s.actors, ref, a, WithStatus(a, StopTransient(k)), ch.at);
    case Holding(a, hold) => HoldRoutes(c, s, id, ref, k, a, hold, ch);
    case StopCommit(a, saved, tree) => PutCases(s.actors, ref, a, Stopped(k, a, saved), ch.at);
  }

  lemma CrashRoutes(s: Sys, id: TaskId, ref: ActorRef, st: CrashStage, ch: Choice)
    requires id in s.tasks && s.tasks[id] == Crash(ref, st) && Routable(s, s.tasks[id])
    ensures Routes(s, Advance(id, ch), StepCrash(s, id, ref, st, ch), ref)
  {
    if st.CrashCommit? {
      PutCases(s.actors, ref, st.actor, WithStatus(st.actor, CRASHED).(assignment := None), ch.at);
    }
  }

  lemma DeleteRoutes(s: Sys, id: TaskId, ref: ActorRef, st: DeleteStage, ch: Choice)
    requires id in s.tasks && s.tasks[id] == Delete(ref, st) && Routable(s, s.tasks[id])
    ensures Routes(s, Advance(id, ch), StepDelete(s, id, ref, st, ch), ref)
  {
    if st.DeleteFlip? {
      PutCases(s.actors, ref, st.actor, WithStatus(st.actor, DELETING), ch.at);
    }
  }

  lemma OwnRoutes(c: Config, s: Sys, id: TaskId, ch: Choice)
    requires id in s.tasks && Routable(s, s.tasks[id]) && Step(c, s, id, ch).Some?
    ensures Routes(s, Advance(id, ch), Step(c, s, id, ch).value, s.tasks[id].ref)
  {
    match s.tasks[id]
    case Resume(ref, st) => ResumeRoutes(c, s, id, ref, st, ch);
    case Stop(ref, k, st) => StopRoutes(c, s, id, ref, k, st, ch);
    case Crash(ref, st) => CrashRoutes(s, id, ref, st, ch);
    case Delete(ref, st) => DeleteRoutes(s, id, ref, st, ch);
    case Ended(_) =>
  }

  lemma AdvanceRoutesOne(c: Config, s: Sys, id: TaskId, ch: Choice, ref: ActorRef)
    requires Inv(c, s) && id in s.tasks && Step(c, s, id, ch).Some?
    ensures Routes(s, Advance(id, ch), Step(c, s, id, ch).value, ref)
  {
    if ref == s.tasks[id].ref {
      OwnRoutes(c, s, id, ch);
    } else {
      var effect := StepLegal(c, s, id, ch);
      StepReroutes(c, s, id, ch);
    }
  }

  lemma EventRoutes(c: Config, s: Sys, e: Event, ref: ActorRef)
    requires Apply(c, s, e).Some? && !e.Advance?
    ensures Routes(s, e, Apply(c, s, e).value, ref)
  {
  }

  // A binding goes exactly in these steps, and appears exactly when its actor
  // becomes RUNNING.
  lemma RoutedIff(c: Config, s: Sys, e: Event, ref: ActorRef)
    requires P.ValidConfig(c.pool) && Reachable(c, s) && Apply(c, s, e).Some?
    ensures Routes(s, e, Apply(c, s, e).value, ref)
  {
    AlwaysInv(c, s);
    if e.Advance? {
      AdvanceRoutesOne(c, s, e.id, e.choice, ref);
    } else {
      EventRoutes(c, s, e, ref);
    }
  }

  // ---- bindings that outlive RUNNING ----

  lemma StopLeaves(c: Config, s: Sys, id: TaskId, ch: Choice)
    requires id in s.tasks && s.tasks[id].Stop? && Routable(s, s.tasks[id]) && Step(c, s, id, ch).Some?
    requires Running(s, s.tasks[id].ref) && !Running(Step(c, s, id, ch).value, s.tasks[id].ref)
    ensures s.tasks[id].stop.StopFlip?
  {
    var e := StepLegal(c, s, id, ch);
  }

  lemma AdvanceLeaves(c: Config, s: Sys, id: TaskId, ch: Choice, ref: ActorRef)
    requires Inv(c, s) && id in s.tasks && Step(c, s, id, ch).Some?
    requires Running(s, ref) && ref in s.bindings && !Running(Step(c, s, id, ch).value, ref)
    ensures Unbinds(s, Advance(id, ch), ref) || Stops(s, Advance(id, ch), ref)
  {
    var e := StepLegal(c, s, id, ch);
    assert TaskRouteOk(s.actors, s.bindings, s.tasks[id]) && TaskActorOk(s.actors, s.tasks[id]);
    match s.tasks[id]
    case Stop(_, _, _) => StopLeaves(c, s, id, ch);
    case _ =>
  }

  lemma EventKeepsRunning(c: Config, s: Sys, e: Event, ref: ActorRef)
    requires Apply(c, s, e).Some? && !e.Advance? && Running(s, ref)
    ensures Running(Apply(c, s, e).value, ref)
  {
  }

  lemma LeavesRunning(c: Config, s: Sys, e: Event, ref: ActorRef)
    requires P.ValidConfig(c.pool) && Reachable(c, s) && Apply(c, s, e).Some?
    requires Running(s, ref) && ref in s.bindings && !Running(Apply(c, s, e).value, ref)
    ensures Unbinds(s, e, ref) || Stops(s, e, ref)
  {
    AlwaysInv(c, s);
    if e.Advance? {
      AdvanceLeaves(c, s, e.id, e.choice, ref);
    } else {
      EventKeepsRunning(c, s, e, ref);
    }
  }

  // A routed actor that stops RUNNING stays routed exactly when a suspend or
  // pause has flipped its record.
  lemma OutlivesRunningIff(c: Config, s: Sys, e: Event, ref: ActorRef)
    requires P.ValidConfig(c.pool) && Reachable(c, s) && Apply(c, s, e).Some?
    requires Running(s, ref) && ref in s.bindings && !Running(Apply(c, s, e).value, ref)
    ensures ref in Apply(c, s, e).value.bindings <==> Stops(s, e, ref)
  {
    RoutedIff(c, s, e, ref);
    LeavesRunning(c, s, e, ref);
  }

  // ---- running actors that are not routed ----

  // An actor that goes on RUNNING loses its route exactly to an operation that
  // began before its present run or to a crash not yet written.
  lemma RunningUnroutedIff(c: Config, s: Sys, e: Event, ref: ActorRef)
    requires P.ValidConfig(c.pool) && Reachable(c, s) && Apply(c, s, e).Some?
    requires Running(s, ref) && ref in s.bindings && Running(Apply(c, s, e).value, ref)
    ensures ref !in Apply(c, s, e).value.bindings <==> Unbinds(s, e, ref)
    ensures Unbinds(s, e, ref) && s.tasks[e.id].Stop? ==> s.tasks[e.id].stop.actor.version < s.actors[ref].version
    ensures Unbinds(s, e, ref) ==> !s.tasks[e.id].Delete?
  {
    AlwaysInv(c, s);
    RoutedIff(c, s, e, ref);
    if Unbinds(s, e, ref) {
      assert TaskActorOk(s.actors, s.tasks[e.id]);
    }
  }
}
