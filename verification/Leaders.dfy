// Resumes under their singleflight: the orchestrator composed with the registry
// of flights.  That one resume of an actor leads at a time, which is a guard of
// the orchestrator's own model, comes out of the composition.
module Leaders {
  import opened Wrappers
  import opened Model
  import opened WorkerPoolModel
  import opened ResumeKeys
  import opened O = OrchestratorModel
  import T = OrchestratorTheorems
  import A = ActorSafety
  import F = SingleflightModel
  import P = PoolModel

  // refs: the actor that each flight resumes.  work: the task that runs the
  // flight's work, once started.
  datatype Joint = Joint(sf: F.State, sys: Sys, refs: map<F.FlightId, ActorRef>, work: map<F.FlightId, TaskId>)

  datatype Event =
    | Ask(id: F.CallerId, ref: ActorRef, budget: Option<F.Time>, asked: F.Time)
    | Start(flight: F.FlightId, id: TaskId)
    | Finish(flight: F.FlightId, outcome: F.Outcome)
    | Fly(step: F.Event)
    | Orchestrate(event: O.Event)

  // resume_actor enters the singleflight under the actor's key.
  function Asked(j: Joint, ref: ActorRef, sf: F.State): Joint {
    j.(sf := sf, refs := if |sf.flights| > |j.sf.flights| then j.refs[|j.sf.flights| := ref] else j.refs)
  }

  // The work of a flight starts: a resume begins, whoever else resumes.
  function Started(j: Joint, f: F.FlightId, id: TaskId, sf: F.State): Joint
    requires f in j.refs
  {
    j.(sf := sf, sys := Goto(j.sys, id, Resume(j.refs[f], Read)), work := j.work[f := id])
  }

  function Apply(c: Config, j: Joint, e: Event): Option<Joint> {
    match e
    case Ask(id, ref, budget, asked) =>
      (match F.Apply(j.sf, F.Call(id, ResumeKey(ref), budget, asked))
       case None => None
       case Some(sf) => Some(Asked(j, ref, sf)))
    case Start(f, id) =>
      if id in j.sys.tasks || f !in j.refs then None
      else
        (match F.Apply(j.sf, F.StartFn(f))
         case None => None
         case Some(sf) => Some(Started(j, f, id, sf)))
    case Finish(f, o) =>
      if f in j.work && j.work[f] in j.sys.tasks && j.sys.tasks[j.work[f]].Ended? then
        (match F.Apply(j.sf, F.EndFn(f, o))
         case None => None
         case Some(sf) => Some(j.(sf := sf)))
      else None
    case Fly(step) =>
      if step.Call? || step.StartFn? || step.EndFn? then None
      else
        (match F.Apply(j.sf, step)
         case None => None
         case Some(sf) => Some(j.(sf := sf)))
    case Orchestrate(event) =>
      if event.Begin? && event.task.Resume? then None
      else
        (match O.Apply(c, j.sys, event)
         case None => None
         case Some(sys) => Some(j.(sys := sys)))
  }

  function Run(c: Config, j: Joint, es: seq<Event>): Option<Joint> {
    if es == [] then Some(j)
    else
      match Run(c, j, es[..|es| - 1])
      case None => None
      case Some(q) => Apply(c, q, es[|es| - 1])
  }

  function Init(golden: map<string, SnapshotRef>, now: F.Time): Joint {
    Joint(F.Init(now), O.Init(golden, now), map[], map[])
  }

  // ---- invariant ----

  predicate FlightOk(j: Joint, f: F.FlightId)
    requires f < |j.sf.flights|
  {
    f in j.refs && j.sf.flights[f].key == ResumeKey(j.refs[f])
  }

  // Task id is the work of flight f, which is under way.
  predicate WorksFor(j: Joint, id: TaskId, f: F.FlightId) {
    && f in j.work && j.work[f] == id && f in j.refs && f < |j.sf.flights| && j.sf.flights[f].phase.Working?
    && id in j.sys.tasks && j.sys.tasks[id].ref == j.refs[f]
  }

  ghost predicate TaskOk(j: Joint, id: TaskId)
    requires id in j.sys.tasks
  {
    j.sys.tasks[id].Resume? ==> exists f :: WorksFor(j, id, f)
  }

  ghost predicate Inv(c: Config, j: Joint) {
    && F.Reachable(j.sf) && T.Reachable(c, j.sys)
    && (forall f: F.FlightId :: f < |j.sf.flights| ==> FlightOk(j, f))
    && (forall id :: id in j.sys.tasks ==> TaskOk(j, id))
  }

  // Every resume under way keeps its flight.
  lemma WorkKept(j: Joint, q: Joint)
    requires forall id :: id in j.sys.tasks ==> TaskOk(j, id)
    requires forall f: F.FlightId :: f < |j.sf.flights| && j.sf.flights[f].phase.Working? ==> StillWorks(j, q, f)
    requires q.sys == j.sys
    ensures forall id :: id in q.sys.tasks ==> TaskOk(q, id)
  {
    forall id | id in q.sys.tasks && q.sys.tasks[id].Resume?
      ensures exists f :: WorksFor(q, id, f)
    {
      assert TaskOk(j, id);
      var f :| WorksFor(j, id, f);
      assert StillWorks(j, q, f) && WorksFor(q, id, f);
    }
  }

  predicate StillWorks(j: Joint, q: Joint, f: F.FlightId)
    requires f < |j.sf.flights|
  {
    && (f in j.refs ==> f in q.refs && q.refs[f] == j.refs[f])
    && (f in j.work ==> f in q.work && q.work[f] == j.work[f])
    && f < |q.sf.flights|
    && (q.sf.flights[f].phase.Working?
        || (f in j.work && j.work[f] in j.sys.tasks && j.sys.tasks[j.work[f]].Ended?))
  }

  // ---- each event ----

  lemma FlightsKept(s: F.State, e: F.Event)
    requires F.Apply(s, e).Some?
    ensures var q := F.Apply(s, e).value;
      && |s.flights| <= |q.flights| <= |s.flights| + 1
      && (|q.flights| > |s.flights| ==> e.Call? && q.flights[|s.flights|].key == e.key)
      && forall f: F.FlightId :: f < |s.flights| ==>
           q.flights[f].key == s.flights[f].key
           && (q.flights[f].phase == s.flights[f].phase || (e.StartFn? && e.flight == f) || (e.EndFn? && e.flight == f))
  {
  }

  lemma AskKeeps(c: Config, j: Joint, e: Event, q: Joint)
    requires Inv(c, j) && e.Ask? && Apply(c, j, e) == Some(q)
    ensures Inv(c, q)
  {
    var call := F.Call(e.id, ResumeKey(e.ref), e.budget, e.asked);
    F.Onward(j.sf, call, q.sf);
    FlightsKept(j.sf, call);
    forall f: F.FlightId | f < |q.sf.flights|
      ensures FlightOk(q, f)
    {
      assert f < |j.sf.flights| ==> FlightOk(j, f);
    }
    WorkKept(j, q);
  }

  lemma FlyKeeps(c: Config, j: Joint, e: Event, q: Joint)
    requires Inv(c, j) && (e.Fly? || e.Finish?) && Apply(c, j, e) == Some(q)
    ensures Inv(c, q)
  {
    var step := if e.Fly? then e.step else F.EndFn(e.flight, e.outcome);
    F.Onward(j.sf, step, q.sf);
    FlightsKept(j.sf, step);
    forall f: F.FlightId | f < |q.sf.flights|
      ensures FlightOk(q, f)
    {
      assert FlightOk(j, f);
    }
    WorkKept(j, q);
  }

  // Nobody resumes the actor of a flight that is about to start its work.
  lemma StartLeads(c: Config, j: Joint, f: F.FlightId)
    requires Inv(c, j) && f < |j.sf.flights| && j.sf.flights[f].phase.Scheduled?
    ensures f in j.refs && !HasLeader(j.sys, j.refs[f])
  {
    assert FlightOk(j, f);
    if HasLeader(j.sys, j.refs[f]) {
      var id :| id in j.sys.tasks && j.sys.tasks[id].Resume? && j.sys.tasks[id].ref == j.refs[f];
      assert TaskOk(j, id);
      var g :| WorksFor(j, id, g);
      assert FlightOk(j, g);
      F.OneFnPerKey(j.sf, f, g);
    }
  }

  lemma StartKeeps(c: Config, j: Joint, e: Event, q: Joint)
    requires Inv(c, j) && e.Start? && Apply(c, j, e) == Some(q)
    ensures Inv(c, q)
    ensures O.Apply(c, j.sys, Begin(e.id, Resume(j.refs[e.flight], Read))) == Some(q.sys)
  {
    F.Onward(j.sf, F.StartFn(e.flight), q.sf);
    FlightsKept(j.sf, F.StartFn(e.flight));
    StartLeads(c, j, e.flight);
    T.ReachableStep(c, j.sys, Begin(e.id, Resume(j.refs[e.flight], Read)), q.sys);
    forall f: F.FlightId | f < |q.sf.flights|
      ensures FlightOk(q, f)
    {
      assert FlightOk(j, f);
    }
    StartedWorks(c, j, e, q);
  }

  lemma StartedWorks(c: Config, j: Joint, e: Event, q: Joint)
    requires Inv(c, j) && e.Start? && Apply(c, j, e) == Some(q)
    ensures forall id :: id in q.sys.tasks ==> TaskOk(q, id)
  {
    FlightsKept(j.sf, F.StartFn(e.flight));
    forall id | id in q.sys.tasks && q.sys.tasks[id].Resume?
      ensures exists f :: WorksFor(q, id, f)
    {
      if id == e.id {
        assert WorksFor(q, id, e.flight);
      } else {
        assert TaskOk(j, id);
        var f :| WorksFor(j, id, f);
        assert WorksFor(q, id, f);
      }
    }
  }

  // A resume never becomes one of another actor, and no other task one.
  lemma ResumesGoOn(c: Config, s: Sys, e: O.Event, q: Sys, id: TaskId)
    requires P.ValidConfig(c.pool) && T.Reachable(c, s) && O.Apply(c, s, e) == Some(q)
    requires !(e.Begin? && e.task.Resume?) && id in q.tasks && q.tasks[id].Resume?
    ensures id in s.tasks && s.tasks[id].Resume? && s.tasks[id].ref == q.tasks[id].ref
  {
    if e.Advance? {
      T.AlwaysInv(c, s);
      var effect := A.StepLegal(c, s, e.id, e.choice);
    }
  }

  lemma OrchestrateKeeps(c: Config, j: Joint, e: Event, q: Joint)
    requires P.ValidConfig(c.pool) && Inv(c, j) && e.Orchestrate? && Apply(c, j, e) == Some(q)
    ensures Inv(c, q)
  {
    T.ReachableStep(c, j.sys, e.event, q.sys);
    forall f: F.FlightId | f < |q.sf.flights|
      ensures FlightOk(q, f)
    {
      assert FlightOk(j, f);
    }
    forall id | id in q.sys.tasks && q.sys.tasks[id].Resume?
      ensures exists f :: WorksFor(q, id, f)
    {
      ResumesGoOn(c, j.sys, e.event, q.sys, id);
      assert TaskOk(j, id);
      var f :| WorksFor(j, id, f);
      assert WorksFor(q, id, f);
    }
  }

  lemma StepKeeps(c: Config, j: Joint, e: Event, q: Joint)
    requires P.ValidConfig(c.pool) && Inv(c, j) && Apply(c, j, e) == Some(q)
    ensures Inv(c, q)
  {
    match e
    case Ask(_, _, _, _) => AskKeeps(c, j, e, q);
    case Start(_, _) => StartKeeps(c, j, e, q);
    case Orchestrate(_) => OrchestrateKeeps(c, j, e, q);
    case _ => FlyKeeps(c, j, e, q);
  }

  lemma {:induction false} RunKeeps(c: Config, j: Joint, es: seq<Event>)
    requires P.ValidConfig(c.pool) && Inv(c, j) && Run(c, j, es).Some?
    ensures Inv(c, Run(c, j, es).value)
  {
    if es == [] {
    } else {
      RunKeeps(c, j, es[..|es| - 1]);
      StepKeeps(c, Run(c, j, es[..|es| - 1]).value, es[|es| - 1], Run(c, j, es).value);
    }
  }

  // ---- what comes out ----

  ghost predicate Reachable(c: Config, j: Joint) {
    exists golden, now, es :: Run(c, Init(golden, now), es) == Some(j)
  }

  lemma AlwaysInv(c: Config, j: Joint)
    requires P.ValidConfig(c.pool) && Reachable(c, j)
    ensures Inv(c, j)
  {
    var golden, now, es :| Run(c, Init(golden, now), es) == Some(j);
    assert F.Run(F.Init(now), []) == Some(F.Init(now));
    assert O.Run(c, O.Init(golden, now), []) == Some(O.Init(golden, now));
    RunKeeps(c, Init(golden, now), es);
  }

  // The orchestrator under its singleflight only ever takes events of its own
  // model, whose guard on leaders is met without being checked; so all that is
  // proved of the one holds of the other.
  lemma LeadersAreGuarded(c: Config, j: Joint, e: Event, q: Joint)
    requires P.ValidConfig(c.pool) && Reachable(c, j) && Apply(c, j, e) == Some(q)
    ensures T.Reachable(c, j.sys) && T.Reachable(c, q.sys)
    ensures e.Start? ==>
      e.flight in j.refs && O.Apply(c, j.sys, Begin(e.id, Resume(j.refs[e.flight], Read))) == Some(q.sys)
  {
    AlwaysInv(c, j);
    StepKeeps(c, j, e, q);
    if e.Start? {
      StartKeeps(c, j, e, q);
    }
  }

  // Each resume in progress is the work of exactly one flight under way.
  lemma OneFlightEach(c: Config, j: Joint, id: TaskId)
    requires P.ValidConfig(c.pool) && Reachable(c, j) && id in j.sys.tasks && j.sys.tasks[id].Resume?
    ensures exists f :: WorksFor(j, id, f) && forall g :: WorksFor(j, id, g) ==> g == f
  {
    AlwaysInv(c, j);
    assert TaskOk(j, id);
    var f :| WorksFor(j, id, f);
    forall g | WorksFor(j, id, g)
      ensures g == f
    {
      assert FlightOk(j, f) && FlightOk(j, g);
      F.OneFnPerKey(j.sf, f, g);
    }
  }
}
