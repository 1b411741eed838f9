// The routing table never contradicts the actor table.
module RouterSafety {
  import opened Wrappers
  import opened Model
  import opened Stores
  import opened WorkerPoolModel
  import opened OrchestratorModel
  import opened ActorSafety

  type Bindings = map<ActorRef, Assignment>

  predicate BindingOk(actors: Actors, bindings: Bindings, ref: ActorRef) {
    ref in bindings ==> ref in actors && actors[ref].assignment == Some(bindings[ref])
  }

  // While the record is still the one copied, the actor is not routed.
  predicate Unrouted(actors: Actors, bindings: Bindings, ref: ActorRef, a: Actor) {
    ref in actors && actors[ref].version == a.version ==> ref !in bindings
  }

  predicate TaskRouteOk(actors: Actors, bindings: Bindings, t: Task) {
    match t
    case Stop(ref, _, Holding(a, Release(_, _, _))) => Unrouted(actors, bindings, ref, a)
    case Stop(ref, _, StopCommit(a, _, _)) => Unrouted(actors, bindings, ref, a)
    case Crash(ref, CrashCommit(a)) => Unrouted(actors, bindings, ref, a)
    case _ => true
  }

  ghost predicate RouterInv(s: Sys) {
    && (forall ref :: ref in s.bindings ==> BindingOk(s.actors, s.bindings, ref))
    && (forall id :: id in s.tasks ==> TaskRouteOk(s.actors, s.bindings, s.tasks[id]))
  }

  // ---- what one step does to the routing of its actor ----

  predicate OnlyBinding(before: Bindings, after: Bindings, ref: ActorRef) {
    || after == before
    || after == before - {ref}
    || (ref in after && after == before[ref := after[ref]])
  }

  // A binding that survives or appears belongs to the record that survives or appears.
  predicate Reroutes(s: Sys, id: TaskId, q: Sys, ref: ActorRef) {
    && OnlyBinding(s.bindings, q.bindings, ref)
    && BindingOk(q.actors, q.bindings, ref)
    && (ref in q.bindings && ref in q.actors && ref in s.actors ==>
          || (ref in s.bindings && q.actors[ref] == s.actors[ref])
          || q.actors[ref].version > s.actors[ref].version)
    && id in q.tasks && q.tasks == s.tasks[id := q.tasks[id]]
    && TaskRouteOk(q.actors, q.bindings, q.tasks[id])
  }

  ghost predicate OnlyActor(before: Actors, after: Actors, ref: ActorRef) {
    forall r :: r != ref ==> (r in before <==> r in after) && (r in before ==> after[r] == before[r])
  }

  lemma OtherTaskRoutes(s: Sys, id: TaskId, q: Sys, t: Task)
    requires TaskActorOk(s.actors, t) && TaskRouteOk(s.actors, s.bindings, t)
    requires id in s.tasks && Reroutes(s, id, q, s.tasks[id].ref) && OnlyActor(s.actors, q.actors, s.tasks[id].ref)
    requires s.tasks[id].ref in q.actors ==> s.tasks[id].ref in s.actors
    ensures TaskRouteOk(q.actors, q.bindings, t)
  {
  }

  lemma RouteMove(s: Sys, id: TaskId, q: Sys)
    requires ActorInv(s.actors, s.tasks) && RouterInv(s)
    requires id in s.tasks && Reroutes(s, id, q, s.tasks[id].ref) && OnlyActor(s.actors, q.actors, s.tasks[id].ref)
    requires s.tasks[id].ref in q.actors ==> s.tasks[id].ref in s.actors
    ensures RouterInv(q)
  {
    forall i | i in s.tasks && i != id
      ensures TaskRouteOk(q.actors, q.bindings, s.tasks[i])
    {
      OtherTaskRoutes(s, id, q, s.tasks[i]);
    }
  }

  // ---- each step ----

  predicate Routable(s: Sys, t: Task) {
    && Ready(s, t)
    && BindingOk(s.actors, s.bindings, t.ref)
    && TaskRouteOk(s.actors, s.bindings, t)
  }

  // Steps that touch neither the actor table nor the routing table.
  predicate Silent(s: Sys, id: TaskId, q: Sys) {
    && q.actors == s.actors && q.bindings == s.bindings
    && id in q.tasks && q.tasks == s.tasks[id := q.tasks[id]]
    && TaskRouteOk(s.actors, s.bindings, q.tasks[id])
  }

  lemma SilentReroutes(s: Sys, id: TaskId, q: Sys, ref: ActorRef)
    requires Silent(s, id, q) && BindingOk(s.actors, s.bindings, ref)
    ensures Reroutes(s, id, q, ref)
  {
  }

  lemma ReadsSilent(s: Sys, id: TaskId, ref: ActorRef, st: ResumeStage)
    requires Routable(s, Resume(ref, st)) && (st.Read? || st.Probe? || st.Load? || st.Reread? || st.Lost?)
    ensures Silent(s, id,
      match st
      case Probe(tm) => StepProbe(s, id, ref, tm)
      case Load(tm) => StepLoad(s, id, ref, tm)
      case Reread(tm) => StepReread(s, id, ref, tm)
      case Lost(asg) => StepLost(s, id, ref, asg)
      case _ => StepRead(s, id, ref))
  {
  }

  lemma FlipReroutes(s: Sys, id: TaskId, ref: ActorRef, tm: Template, a: Actor, at: Time)
    requires Routable(s, Resume(ref, Flip(tm, a)))
    ensures Reroutes(s, id, StepFlip(s, id, ref, tm, a, at), ref)
  {
  }

  lemma ClaimingSilent(c: Config, s: Sys, id: TaskId, ref: ActorRef, tm: Template, a: Actor, attempt: nat,
                       st: ClaimStage, ch: Choice)
    requires st.Acquire? || st.Wait? || st.Register?
    ensures var q := StepClaiming(c, s, id, ref, tm, a, attempt, st, ch); q.Some? ==> Silent(s, id, q.value)
  {
  }

  lemma ClaimSilent(c: Config, s: Sys, id: TaskId, ref: ActorRef, tm: Template, a: Actor, attempt: nat,
                    st: ClaimStage, ch: Choice)
    requires st.Claim? || st.Drain?
    ensures Silent(s, id, StepClaiming(c, s, id, ref, tm, a, attempt, st, ch).value)
  {
  }

  lemma SetupSilent(s: Sys, id: TaskId, ref: ActorRef, tm: Template, a: Actor, w: Worker, st: SetupStage, ch: Choice)
    requires !st.Finalize?
    ensures var q := StepSetup(s, id, ref, tm, a, w, st, ch); q.Some? ==> Silent(s, id, q.value)
  {
  }

  lemma FinalizeReroutes(s: Sys, id: TaskId, ref: ActorRef, tm: Template, a: Actor, w: Worker, at: Time)
    requires Routable(s, Resume(ref, Setup(tm, a, w, Finalize)))
    ensures Reroutes(s, id, StepFinalize(s, id, ref, a, w, at), ref)
  {
  }

  lemma StopReadSilent(s: Sys, id: TaskId, ref: ActorRef, k: Kind)
    ensures Silent(s, id, StepStopRead(s, id, ref, k))
  {
  }

  lemma StopFlipReroutes(s: Sys, id: TaskId, ref: ActorRef, k: Kind, a: Actor, at: Time)
    requires Routable(s, Stop(ref, k, StopFlip(a)))
    ensures Reroutes(s, id, StepStopFlip(s, id, ref, k, a, at), ref)
  {
  }

  lemma FetchReroutes(c: Config, s: Sys, id: TaskId, ref: ActorRef, k: Kind, a: Actor, st: HoldStage, ch: Choice)
    requires Routable(s, Stop(ref, k, Holding(a, st))) && (st.Fetch? || st.Save?)
    ensures var q := StepHolding(c, s, id, ref, k, a, st, ch); q.Some? ==> Reroutes(s, id, q.value, ref)
  {
  }

  lemma ReleaseReroutes(c: Config, s: Sys, id: TaskId, ref: ActorRef, k: Kind, a: Actor, st: HoldStage, ch: Choice)
    requires Routable(s, Stop(ref, k, Holding(a, st))) && (st.Unbind? || st.Release?)
    ensures var q := StepHolding(c, s, id, ref, k, a, st, ch); q.Some? ==> Reroutes(s, id, q.value, ref)
  {
  }

  lemma StopCommitReroutes(s: Sys, id: TaskId, ref: ActorRef, k: Kind, a: Actor, saved: SnapshotRef, tree: Tree,
                           at: Time)
    requires Routable(s, Stop(ref, k, StopCommit(a, saved, tree)))
    ensures Reroutes(s, id, StepStopCommit(s, id, ref, k, a, saved, tree, at), ref)
  {
  }

  lemma CrashReroutes(s: Sys, id: TaskId, ref: ActorRef, st: CrashStage, ch: Choice)
    requires Routable(s, Crash(ref, st))
    ensures Reroutes(s, id, StepCrash(s, id, ref, st, ch), ref)
  {
  }

  lemma DeleteReroutes(s: Sys, id: TaskId, ref: ActorRef, st: DeleteStage, ch: Choice)
    requires Routable(s, Delete(ref, st))
    ensures Reroutes(s, id, StepDelete(s, id, ref, st, ch), ref)
  {
  }

  // ---- every event ----

  lemma ResumeReroutes(c: Config, s: Sys, id: TaskId, ref: ActorRef, st: ResumeStage, ch: Choice)
    requires Routable(s, Resume(ref, st))
    ensures var q := StepResume(c, s, id, ref, st, ch); q.Some? ==> Reroutes(s, id, q.value, ref)
  {
    if st.Flip? {
      FlipReroutes(s, id, ref, st.template, st.actor, ch.at);
    } else if st.Setup? && st.setup.Finalize? {
      FinalizeReroutes(s, id, ref, st.template, st.actor, st.worker, ch.at);
    } else {
      if st.Claiming? {
        if st.claim.Claim? || st.claim.Drain? {
          ClaimSilent(c, s, id, ref, st.template, st.actor, st.attempt, st.claim, ch);
        } else {
          ClaimingSilent(c, s, id, ref, st.template, st.actor, st.attempt, st.claim, ch);
        }
      } else if st.Setup? {
        SetupSilent(s, id, ref, st.template, st.actor, st.worker, st.setup, ch);
      } else {
        ReadsSilent(s, id, ref, st);
      }
      var q := StepResume(c, s, id, ref, st, ch);
      if q.Some? {
        SilentReroutes(s, id, q.value, ref);
      }
    }
  }

  lemma StopReroutes(c: Config, s: Sys, id: TaskId, ref: ActorRef, k: Kind, st: StopStage, ch: Choice)
    requires Routable(s, Stop(ref, k, st))
    ensures var q := StepStop(c, s, id, ref, k, st, ch); q.Some? ==> Reroutes(s, id, q.value, ref)
  {
    match st
    case StopRead =>
      StopReadSilent(s, id, ref, k);
      SilentReroutes(s, id, StepStopRead(s, id, ref, k), ref);
    case StopFlip(a) => StopFlipReroutes(s, id, ref, k, a, ch.at);
    case Holding(a, hold) =>
      if hold.Fetch? || hold.Save? {
        FetchReroutes(c, s, id, ref, k, a, hold, ch);
      } else {
        ReleaseReroutes(c, s, id, ref, k, a, hold, ch);
      }
    case StopCommit(a, saved, tree) => StopCommitReroutes(s, id, ref, k, a, saved, tree, ch.at);
  }

  lemma StepReroutes(c: Config, s: Sys, id: TaskId, ch: Choice)
    requires id in s.tasks && Routable(s, s.tasks[id])
    ensures var q := Step(c, s, id, ch); q.Some? ==> Reroutes(s, id, q.value, s.tasks[id].ref)
  {
    match s.tasks[id]
    case Resume(ref, st) => ResumeReroutes(c, s, id, ref, st, ch);
    case Stop(ref, k, st) => StopReroutes(c, s, id, ref, k, st, ch);
    case Crash(ref, st) => CrashReroutes(s, id, ref, st, ch);
    case Delete(ref, st) => DeleteReroutes(s, id, ref, st, ch);
    case Ended(_) =>
  }

  lemma AdvanceRoutes(c: Config, s: Sys, id: TaskId, ch: Choice)
    requires ActorInv(s.actors, s.tasks) && RouterInv(s) && id in s.tasks && Step(c, s, id, ch).Some?
    ensures RouterInv(Step(c, s, id, ch).value)
  {
    var q := Step(c, s, id, ch).value;
    var e := StepLegal(c, s, id, ch);
    StepReroutes(c, s, id, ch);
    RouteMove(s, id, q);
  }

  lemma CreateRoutes(s: Sys, a: Actor, at: Time)
    requires RouterInv(s) && (forall id :: id in s.tasks && s.tasks[id].ref == a.Ref() ==> s.tasks[id].Ended?)
    ensures match ActorPut(s.actors, a, None, at)
      case ActorStored(table, _) => RouterInv(s.(actors := table))
      case _ => true
  {
  }

  lemma RouterStep(c: Config, s: Sys, e: Event)
    requires ActorInv(s.actors, s.tasks) && RouterInv(s) && Apply(c, s, e).Some?
    ensures RouterInv(Apply(c, s, e).value)
  {
    match e
    case Create(ref, templateId, selector, at) => CreateRoutes(s, NewActor(ref, templateId, selector, at), at);
    case Advance(id, choice) => AdvanceRoutes(c, s, id, choice);
    case _ =>
  }
}
