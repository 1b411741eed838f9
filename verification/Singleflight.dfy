// Singleflight (singleflight.py): concurrent calls with one key share one flight.
//
// A flight is the leader's task: created by the first caller of a key, it runs
// `fn` and ends with its outcome.  A caller is one `run` coroutine.  One event
// takes one of them from one await to the next.  A joiner waits until a deadline
// of its own, set when it called; the flight's deadline is recorded only.
module SingleflightModel {
  import opened Wrappers
  import opened Collections

  type FlightId = nat
  type CallerId = nat
  type Time = int

  datatype Error = TimeoutError | OtherError(code: int)

  // How `fn` ends.
  datatype Outcome = Returns(value: int) | Raises(error: Error)

  datatype Phase = Scheduled | Working | Done(outcome: Outcome)

  // leader: the caller that created the flight.  deadline: of its budget, None
  // for infinity.
  datatype Flight = Flight(key: string, leader: CallerId, joiners: int, deadline: Option<Time>, phase: Phase)

  // What a call of `run` comes back with.
  datatype Answer = Shared(outcome: Outcome) | BudgetExhausted

  datatype Caller =
    | Leading(flight: FlightId)
    | Finalizing(flight: FlightId)
    | Joining(flight: FlightId, deadline: Option<Time>)
    | Left(flight: FlightId, led: bool, deadline: Option<Time>, answer: Answer, at: Time)

  // flights: every flight ever, by number.  table: the flights in the registry.
  // starts: the flights whose `fn` was invoked, in order.
  datatype State = State(table: map<string, FlightId>, flights: seq<Flight>, callers: map<CallerId, Caller>,
                         starts: seq<FlightId>, now: Time)

  // A call is made at `asked` and gets the lock at the present time.
  datatype Event =
    | Tick(now: Time)
    | Call(id: CallerId, key: string, budget: Option<Time>, asked: Time)
    | StartFn(flight: FlightId)
    | EndFn(flight: FlightId, outcome: Outcome)
    | LeaderWakes(id: CallerId)
    | Finalize(id: CallerId)
    | JoinerWakes(id: CallerId)
    | JoinerTimesOut(id: CallerId)

  function Init(now: Time): State {
    State(map[], [], map[], [], now)
  }

  function Deadline(budget: Option<Time>, asked: Time): Option<Time> {
    if budget.Some? then Some(asked + budget.value) else None
  }

  // The deadline has come.
  predicate Passed(deadline: Option<Time>, now: Time) {
    deadline.Some? && deadline.value <= now
  }

  // Decide leader or joiner, under the lock; a joiner whose budget is spent by
  // then is turned away.
  function Enter(s: State, id: CallerId, key: string, deadline: Option<Time>): State {
    if key in s.table && s.table[key] < |s.flights| then
      var f := s.table[key];
      if Passed(deadline, s.now) then
        s.(callers := s.callers[id := Left(f, false, deadline, BudgetExhausted, s.now)])
      else
        s.(flights := s.flights[f := s.flights[f].(joiners := s.flights[f].joiners + 1)],
           callers := s.callers[id := Joining(f, deadline)])
    else
      s.(flights := s.flights + [Flight(key, id, 0, deadline, Scheduled)], table := s.table[key := |s.flights|],
         callers := s.callers[id := Leading(|s.flights|)])
  }

  // A joiner stops waiting.
  function Leave(s: State, id: CallerId, f: FlightId, deadline: Option<Time>, answer: Answer): State
    requires f < |s.flights|
  {
    s.(flights := s.flights[f := s.flights[f].(joiners := s.flights[f].joiners - 1)],
       callers := s.callers[id := Left(f, false, deadline, answer, s.now)])
  }

  // What a joiner makes of the flight's outcome: under a budget, a timeout
  // raised by `fn` is taken for the joiner's own.
  function Joined(o: Outcome, budgeted: bool): Answer {
    if budgeted && o == Raises(TimeoutError) then BudgetExhausted else Shared(o)
  }

  function Apply(s: State, e: Event): Option<State> {
    match e
    case Tick(now) => if now >= s.now then Some(s.(now := now)) else None
    case Call(id, key, budget, asked) =>
      if id in s.callers || asked > s.now then None else Some(Enter(s, id, key, Deadline(budget, asked)))
    case StartFn(f) =>
      if f < |s.flights| && s.flights[f].phase.Scheduled? then
        Some(s.(flights := s.flights[f := s.flights[f].(phase := Working)], starts := s.starts + [f]))
      else None
    case EndFn(f, o) =>
      if f < |s.flights| && s.flights[f].phase.Working? then
        Some(s.(flights := s.flights[f := s.flights[f].(phase := Done(o))]))
      else None
    case LeaderWakes(id) =>
      if id in s.callers && s.callers[id].Leading? then
        var f := s.callers[id].flight;
        if f < |s.flights| && s.flights[f].phase.Done? then
          Some(s.(callers := s.callers[id := Finalizing(f)]))
        else None
      else None
    case Finalize(id) =>
      if id in s.callers && s.callers[id].Finalizing? then
        var f := s.callers[id].flight;
        if f < |s.flights| && s.flights[f].phase.Done? then
          Some(s.(table := s.table - {s.flights[f].key},
                  callers := s.callers[id := Left(f, true, None, Shared(s.flights[f].phase.outcome), s.now)]))
        else None
      else None
    case JoinerWakes(id) =>
      if id in s.callers && s.callers[id].Joining? then
        var f, deadline := s.callers[id].flight, s.callers[id].deadline;
        if f < |s.flights| && s.flights[f].phase.Done? then
          Some(Leave(s, id, f, deadline, Joined(s.flights[f].phase.outcome, deadline.Some?)))
        else None
      else None
    case JoinerTimesOut(id) =>
      if id in s.callers && s.callers[id].Joining? && Passed(s.callers[id].deadline, s.now)
         && s.callers[id].flight < |s.flights|
      then Some(Leave(s, id, s.callers[id].flight, s.callers[id].deadline, BudgetExhausted))
      else None
  }

  function Run(s: State, es: seq<Event>): Option<State> {
    if es == [] then Some(s)
    else
      match Run(s, es[..|es| - 1])
      case None => None
      case Some(q) => Apply(q, es[|es| - 1])
  }

  // ---- invariant ----

  // The caller led flight f and has not finalized it yet.
  predicate Leads(c: Caller) {
    c.Leading? || c.Finalizing?
  }

  predicate EverLed(c: Caller) {
    Leads(c) || (c.Left? && c.led)
  }

  function Waiting(callers: map<CallerId, Caller>, f: FlightId): set<CallerId> {
    set id | id in callers && callers[id].Joining? && callers[id].flight == f
  }

  function Leaders(callers: map<CallerId, Caller>): set<CallerId> {
    set id | id in callers && EverLed(callers[id])
  }

  predicate InTable(table: map<string, FlightId>, flights: seq<Flight>, f: FlightId) {
    f < |flights| && flights[f].key in table && table[flights[f].key] == f
  }

  predicate CallerOk(table: map<string, FlightId>, flights: seq<Flight>, id: CallerId, c: Caller) {
    && c.flight < |flights|
    && (EverLed(c) ==> flights[c.flight].leader == id)
    && (Leads(c) ==> InTable(table, flights, c.flight))
    && match c
       case Leading(_) => true
       case Finalizing(f) => flights[f].phase.Done?
       case Joining(_, _) => true
       case Left(f, led, deadline, answer, at) =>
         if led then flights[f].phase.Done? && answer == Shared(flights[f].phase.outcome)
         else
           || (answer.BudgetExhausted? && Passed(deadline, at))
           || (flights[f].phase.Done? && answer == Joined(flights[f].phase.outcome, deadline.Some?))
  }

  predicate FlightOk(table: map<string, FlightId>, flights: seq<Flight>, callers: map<CallerId, Caller>, f: FlightId)
    requires f < |flights|
  {
    && flights[f].leader in callers && EverLed(callers[flights[f].leader]) && callers[flights[f].leader].flight == f
    && (flights[f].phase.Done? || InTable(table, flights, f))
  }

  ghost predicate FlightsOk(s: State) {
    forall f: FlightId :: f < |s.flights| ==> FlightOk(s.table, s.flights, s.callers, f)
  }

  ghost predicate Counted(s: State) {
    && (forall f: FlightId :: f < |s.flights| ==> s.flights[f].joiners == |Waiting(s.callers, f)|)
    && |Leaders(s.callers)| == |s.flights|
  }

  ghost predicate Logged(s: State) {
    && NoDup(s.starts)
    && (forall f: FlightId :: f in s.starts <==> f < |s.flights| && !s.flights[f].phase.Scheduled?)
  }

  ghost predicate Inv(s: State) {
    && (forall key :: key in s.table ==> s.table[key] < |s.flights| && s.flights[s.table[key]].key == key)
    && (forall id :: id in s.callers ==> CallerOk(s.table, s.flights, id, s.callers[id]))
    && FlightsOk(s)
    && Counted(s)
    && Logged(s)
  }

  predicate JoinsFlight(c: Caller, f: FlightId) {
    c.Joining? && c.flight == f
  }

  function One(b: bool): int {
    if b then 1 else 0
  }

  lemma OneChanges(before: set<CallerId>, after: set<CallerId>, id: CallerId)
    requires forall x :: x != id ==> (x in after <==> x in before)
    ensures |after| == |before| - One(id in before) + One(id in after)
  {
    assert after == (before - {id}) + (if id in after then {id} else {});
  }

  lemma WaitingStep(callers: map<CallerId, Caller>, id: CallerId, c: Caller, f: FlightId)
    ensures |Waiting(callers[id := c], f)|
         == |Waiting(callers, f)| - One(id in callers && JoinsFlight(callers[id], f)) + One(JoinsFlight(c, f))
  {
    var before, after := Waiting(callers, f), Waiting(callers[id := c], f);
    assert forall x :: x != id ==> (x in after <==> x in before);
    OneChanges(before, after, id);
  }

  lemma LeadersStep(callers: map<CallerId, Caller>, id: CallerId, c: Caller)
    ensures |Leaders(callers[id := c])|
         == |Leaders(callers)| - One(id in callers && EverLed(callers[id])) + One(EverLed(c))
  {
    var before, after := Leaders(callers), Leaders(callers[id := c]);
    assert forall x :: x != id ==> (x in after <==> x in before);
    OneChanges(before, after, id);
  }

  // A new caller that leads.
  lemma LeadCounts(s: State, id: CallerId, key: string, deadline: Option<Time>)
    requires Counted(s) && id !in s.callers && key !in s.table
    requires forall i :: i in s.callers ==> s.callers[i].flight < |s.flights|
    ensures Counted(Enter(s, id, key, deadline))
  {
    var q := Enter(s, id, key, deadline);
    forall f: FlightId | f < |q.flights|
      ensures q.flights[f].joiners == |Waiting(q.callers, f)|
    {
      WaitingStep(s.callers, id, q.callers[id], f);
      if f == |s.flights| {
        assert Waiting(s.callers, f) == {};
      }
    }
    LeadersStep(s.callers, id, q.callers[id]);
  }

  // A joiner turned away.
  lemma TurnedAwayCounts(s: State, q: State, id: CallerId, c: Caller)
    requires Counted(s) && id !in s.callers && q.flights == s.flights && q.callers == s.callers[id := c]
    requires c.Left? && !c.led
    ensures Counted(q)
  {
    forall f: FlightId | f < |q.flights|
      ensures q.flights[f].joiners == |Waiting(q.callers, f)|
    {
      WaitingStep(s.callers, id, c, f);
    }
    LeadersStep(s.callers, id, c);
  }

  // A caller that joins, or that stops waiting.
  lemma JoinCounts(s: State, q: State, id: CallerId, c: Caller, f: FlightId, d: int)
    requires Counted(s) && q.callers == s.callers[id := c] && f < |s.flights|
    requires q.flights == s.flights[f := s.flights[f].(joiners := s.flights[f].joiners + d)]
    requires if id in s.callers then s.callers[id].Joining? && s.callers[id].flight == f && c.Left? && !c.led && d == -1
             else c.Joining? && c.flight == f && d == 1
    ensures Counted(q)
  {
    forall g: FlightId | g < |q.flights|
      ensures q.flights[g].joiners == |Waiting(q.callers, g)|
    {
      WaitingStep(s.callers, id, c, g);
    }
    LeadersStep(s.callers, id, c);
  }

  lemma CallFlight(s: State, id: CallerId, key: string, deadline: Option<Time>, f: FlightId)
    requires Inv(s) && id !in s.callers && f < |Enter(s, id, key, deadline).flights|
    ensures var q := Enter(s, id, key, deadline); FlightOk(q.table, q.flights, q.callers, f)
  {
    assert f < |s.flights| ==> FlightOk(s.table, s.flights, s.callers, f);
  }

  lemma CallCaller(s: State, id: CallerId, key: string, deadline: Option<Time>, other: CallerId)
    requires Inv(s) && id !in s.callers && other in Enter(s, id, key, deadline).callers
    ensures var q := Enter(s, id, key, deadline); CallerOk(q.table, q.flights, other, q.callers[other])
  {
    assert other in s.callers ==> CallerOk(s.table, s.flights, other, s.callers[other]);
  }

  lemma CallCounts(s: State, id: CallerId, key: string, deadline: Option<Time>)
    requires Counted(s) && id !in s.callers
    requires forall i :: i in s.callers ==> s.callers[i].flight < |s.flights|
    requires key in s.table ==> s.table[key] < |s.flights|
    ensures Counted(Enter(s, id, key, deadline))
  {
    var q := Enter(s, id, key, deadline);
    if key !in s.table {
      LeadCounts(s, id, key, deadline);
    } else if Passed(deadline, s.now) {
      TurnedAwayCounts(s, q, id, q.callers[id]);
    } else {
      JoinCounts(s, q, id, q.callers[id], s.table[key], 1);
    }
  }

  lemma CallFlights(s: State, id: CallerId, key: string, deadline: Option<Time>)
    requires Inv(s) && id !in s.callers
    ensures FlightsOk(Enter(s, id, key, deadline)) && Logged(Enter(s, id, key, deadline))
  {
    var q := Enter(s, id, key, deadline);
    forall f: FlightId | f < |q.flights|
      ensures FlightOk(q.table, q.flights, q.callers, f)
    {
      CallFlight(s, id, key, deadline, f);
    }
  }

  lemma CallStep(s: State, id: CallerId, key: string, deadline: Option<Time>)
    requires Inv(s) && id !in s.callers
    ensures Inv(Enter(s, id, key, deadline))
  {
    var q := Enter(s, id, key, deadline);
    CallFlights(s, id, key, deadline);
    forall other | other in q.callers
      ensures CallerOk(q.table, q.flights, other, q.callers[other])
    {
      CallCaller(s, id, key, deadline, other);
    }
    CallCounts(s, id, key, deadline);
  }

  lemma FnFlights(s: State, e: Event)
    requires Inv(s) && Apply(s, e).Some? && (e.StartFn? || e.EndFn?)
    ensures FlightsOk(Apply(s, e).value)
  {
    var q := Apply(s, e).value;
    forall f: FlightId | f < |q.flights|
      ensures FlightOk(q.table, q.flights, q.callers, f)
    {
      assert FlightOk(s.table, s.flights, s.callers, f);
    }
  }

  lemma FnCallers(s: State, e: Event, id: CallerId)
    requires Inv(s) && Apply(s, e).Some? && (e.StartFn? || e.EndFn?) && id in s.callers
    ensures var q := Apply(s, e).value; q.callers == s.callers && CallerOk(q.table, q.flights, id, q.callers[id])
  {
    assert CallerOk(s.table, s.flights, id, s.callers[id]);
  }

  lemma FnStep(s: State, e: Event)
    requires Inv(s) && Apply(s, e).Some? && (e.StartFn? || e.EndFn?)
    ensures Inv(Apply(s, e).value)
  {
    FnFlights(s, e);
    forall id | id in s.callers
      ensures var q := Apply(s, e).value; id in q.callers && CallerOk(q.table, q.flights, id, q.callers[id])
    {
      FnCallers(s, e, id);
    }
  }

  // A leader that goes on to its next stage.
  lemma LeaderCounts(s: State, q: State, id: CallerId, c: Caller)
    requires Counted(s) && q.flights == s.flights && q.callers == s.callers[id := c]
    requires id in s.callers && EverLed(s.callers[id]) && EverLed(c)
    ensures Counted(q)
  {
    forall f: FlightId | f < |q.flights|
      ensures q.flights[f].joiners == |Waiting(q.callers, f)|
    {
      WaitingStep(s.callers, id, c, f);
    }
    LeadersStep(s.callers, id, c);
  }

  lemma LeaderFlights(s: State, e: Event, f: FlightId)
    requires Inv(s) && Apply(s, e).Some? && (e.LeaderWakes? || e.Finalize?) && f < |s.flights|
    ensures var q := Apply(s, e).value; q.flights == s.flights && FlightOk(q.table, q.flights, q.callers, f)
  {
    assert CallerOk(s.table, s.flights, e.id, s.callers[e.id]);
    assert FlightOk(s.table, s.flights, s.callers, f);
  }

  lemma LeaderCallers(s: State, e: Event, id: CallerId)
    requires Inv(s) && Apply(s, e).Some? && (e.LeaderWakes? || e.Finalize?)
    ensures var q := Apply(s, e).value; id in q.callers ==> CallerOk(q.table, q.flights, id, q.callers[id])
  {
    assert CallerOk(s.table, s.flights, e.id, s.callers[e.id]);
    assert id in s.callers ==> CallerOk(s.table, s.flights, id, s.callers[id]);
  }

  lemma LeaderStep(s: State, e: Event)
    requires Inv(s) && Apply(s, e).Some? && (e.LeaderWakes? || e.Finalize?)
    ensures Inv(Apply(s, e).value)
  {
    var q := Apply(s, e).value;
    LeaderCounts(s, q, e.id, q.callers[e.id]);
    forall f: FlightId | f < |q.flights|
      ensures FlightOk(q.table, q.flights, q.callers, f)
    {
      LeaderFlights(s, e, f);
    }
    forall id | id in q.callers
      ensures CallerOk(q.table, q.flights, id, q.callers[id])
    {
      LeaderCallers(s, e, id);
    }
  }

  lemma LeaveFlight(s: State, id: CallerId, answer: Answer, f: FlightId)
    requires Inv(s) && id in s.callers && s.callers[id].Joining? && f < |s.flights|
    requires s.callers[id].flight < |s.flights|
    ensures var q := Leave(s, id, s.callers[id].flight, s.callers[id].deadline, answer);
      FlightOk(q.table, q.flights, q.callers, f)
  {
    assert FlightOk(s.table, s.flights, s.callers, f);
  }

  // The joiner may stop waiting with this answer.
  predicate Answers(s: State, c: Caller, answer: Answer)
    requires c.Joining? && c.flight < |s.flights|
  {
    || (answer.BudgetExhausted? && Passed(c.deadline, s.now))
    || (s.flights[c.flight].phase.Done? && answer == Joined(s.flights[c.flight].phase.outcome, c.deadline.Some?))
  }

  lemma LeaveCaller(s: State, id: CallerId, answer: Answer, other: CallerId)
    requires Inv(s) && id in s.callers && s.callers[id].Joining? && s.callers[id].flight < |s.flights|
    requires Answers(s, s.callers[id], answer)
    ensures var q := Leave(s, id, s.callers[id].flight, s.callers[id].deadline, answer);
      other in q.callers ==> CallerOk(q.table, q.flights, other, q.callers[other])
  {
    assert other in s.callers ==> CallerOk(s.table, s.flights, other, s.callers[other]);
  }

  lemma LeaveStep(s: State, id: CallerId, answer: Answer)
    requires Inv(s) && id in s.callers && s.callers[id].Joining? && s.callers[id].flight < |s.flights|
    requires Answers(s, s.callers[id], answer)
    ensures Inv(Leave(s, id, s.callers[id].flight, s.callers[id].deadline, answer))
  {
    var f := s.callers[id].flight;
    var q := Leave(s, id, f, s.callers[id].deadline, answer);
    forall g: FlightId | g < |q.flights|
      ensures FlightOk(q.table, q.flights, q.callers, g)
    {
      LeaveFlight(s, id, answer, g);
    }
    forall other | other in q.callers
      ensures CallerOk(q.table, q.flights, other, q.callers[other])
    {
      LeaveCaller(s, id, answer, other);
    }
    JoinCounts(s, q, id, q.callers[id], f, -1);
  }

  lemma JoinerStep(s: State, e: Event)
    requires Inv(s) && Apply(s, e).Some? && (e.JoinerWakes? || e.JoinerTimesOut?)
    ensures Inv(Apply(s, e).value)
  {
    LeaveStep(s, e.id, Apply(s, e).value.callers[e.id].answer);
  }

  lemma StepSafe(s: State, e: Event)
    requires Inv(s) && Apply(s, e).Some?
    ensures Inv(Apply(s, e).value)
  {
    match e
    case Tick(_) =>
    case Call(id, key, budget, asked) => CallStep(s, id, key, Deadline(budget, asked));
    case StartFn(_) => FnStep(s, e);
    case EndFn(_, _) => FnStep(s, e);
    case LeaderWakes(_) => LeaderStep(s, e);
    case Finalize(_) => LeaderStep(s, e);
    case JoinerWakes(_) => JoinerStep(s, e);
    case JoinerTimesOut(_) => JoinerStep(s, e);
  }

  lemma {:induction false} RunSafe(s: State, es: seq<Event>)
    requires Inv(s) && Run(s, es).Some?
    ensures Inv(Run(s, es).value)
  {
    if es == [] {
    } else {
      RunSafe(s, es[..|es| - 1]);
      StepSafe(Run(s, es[..|es| - 1]).value, es[|es| - 1]);
    }
  }

  // ---- what callers can rely on, after any run ----

  ghost predicate Reachable(s: State) {
    exists now, es :: Run(Init(now), es) == Some(s)
  }

  lemma AlwaysInv(s: State)
    requires Reachable(s)
    ensures Inv(s)
  {
    assert Leaders(map[]) == {};
    var now, es :| Run(Init(now), es) == Some(s);
    RunSafe(Init(now), es);
  }

  // At most one `fn` per key is running or about to run.
  lemma OneFnPerKey(s: State, f: FlightId, g: FlightId)
    requires Reachable(s) && f < |s.flights| && g < |s.flights|
    requires s.flights[f].key == s.flights[g].key && !s.flights[f].phase.Done? && !s.flights[g].phase.Done?
    ensures f == g
  {
    AlwaysInv(s);
    assert FlightOk(s.table, s.flights, s.callers, f) && FlightOk(s.table, s.flights, s.callers, g);
  }

  function Upto(n: nat): set<FlightId> {
    if n == 0 then {} else Upto(n - 1) + {n - 1}
  }

  lemma {:induction false} UptoCardinality(n: nat)
    ensures |Upto(n)| == n
    ensures forall f: FlightId :: f in Upto(n) <==> f < n
  {
    if n > 0 {
      UptoCardinality(n - 1);
    }
  }

  // The caller that created the flight leads or led it, and no other flight.
  predicate Begun(s: State, f: FlightId)
    requires f < |s.flights|
  {
    var id := s.flights[f].leader;
    id in s.callers && EverLed(s.callers[id]) && s.callers[id].flight == f
  }

  lemma StartedIsBegun(s: State, f: FlightId)
    requires Reachable(s) && f < |s.flights|
    ensures Begun(s, f)
  {
    AlwaysInv(s);
    assert FlightOk(s.table, s.flights, s.callers, f);
  }

  lemma StartsCount(s: State)
    requires Logged(s) && |Leaders(s.callers)| == |s.flights|
    ensures |s.starts| <= |Leaders(s.callers)|
    ensures (forall f: FlightId :: f < |s.flights| ==> !s.flights[f].phase.Scheduled?) ==>
      |s.starts| == |Leaders(s.callers)|
  {
    NoDupCardinality(s.starts);
    var all := Upto(|s.flights|);
    UptoCardinality(|s.flights|);
    assert SetOf(s.starts) <= all;
    SubsetCardinality(SetOf(s.starts), all);
    if forall f: FlightId :: f < |s.flights| ==> !s.flights[f].phase.Scheduled? {
      assert SetOf(s.starts) == all;
    }
  }

  // `fn` is invoked once for each flight that has left the schedule, and so once
  // for each leader and never for a joiner.
  lemma StartsAreLeaders(s: State)
    requires Reachable(s)
    ensures NoDup(s.starts)
    ensures forall f: FlightId :: f in s.starts <==> f < |s.flights| && !s.flights[f].phase.Scheduled?
    ensures forall f: FlightId :: f in s.starts ==> Begun(s, f)
    ensures |s.starts| <= |Leaders(s.callers)|
    ensures (forall f: FlightId :: f < |s.flights| ==> !s.flights[f].phase.Scheduled?) ==>
      |s.starts| == |Leaders(s.callers)|
  {
    AlwaysInv(s);
    StartsCount(s);
    forall f: FlightId | f in s.starts
      ensures Begun(s, f)
    {
      StartedIsBegun(s, f);
    }
  }

  // The leader returns its flight's outcome.  A joiner returns it too, or is
  // told its budget ran out; with no budget it always gets the outcome.
  lemma AnswersAreShared(s: State, id: CallerId)
    requires Reachable(s) && id in s.callers && s.callers[id].Left?
    ensures var c := s.callers[id];
      && c.flight < |s.flights|
      && (c.led ==> s.flights[c.flight].leader == id)
      && (c.led || c.deadline.None? ==>
            s.flights[c.flight].phase.Done? && c.answer == Shared(s.flights[c.flight].phase.outcome))
      && (c.answer.Shared? ==> s.flights[c.flight].phase == Done(c.answer.outcome))
  {
    AlwaysInv(s);
    assert CallerOk(s.table, s.flights, id, s.callers[id]);
  }

  // A joiner that comes back before its deadline gets the outcome exactly when
  // it has no budget or `fn` did not itself raise a timeout.
  lemma EarlyAnswerIff(s: State, id: CallerId)
    requires Reachable(s) && id in s.callers && s.callers[id].Left? && !s.callers[id].led
    requires !Passed(s.callers[id].deadline, s.callers[id].at)
    ensures var c := s.callers[id];
      && c.flight < |s.flights| && s.flights[c.flight].phase.Done?
      && var o := s.flights[c.flight].phase.outcome;
         (c.answer == Shared(o) <==> c.deadline.None? || o != Raises(TimeoutError))
  {
    AlwaysInv(s);
    assert CallerOk(s.table, s.flights, id, s.callers[id]);
  }

  predicate Mistaken(s: State, id: CallerId) {
    && id in s.callers && s.callers[id].Left? && !s.callers[id].led && s.callers[id].answer == BudgetExhausted
    && !Passed(s.callers[id].deadline, s.callers[id].at)
  }

  // A run goes on.
  lemma Onward(s: State, e: Event, q: State)
    requires Reachable(s) && Apply(s, e) == Some(q)
    ensures Reachable(q)
  {
    var now, es :| Run(Init(now), es) == Some(s);
    var more := es + [e];
    assert more[..|more| - 1] == es;
    assert Run(Init(now), more) == Some(q);
  }

  // The flight of "key", led by 0 with a budget of 10, and joined by 1.
  function OneJoiner(deadline: Option<Time>, phase: Phase, starts: seq<FlightId>, now: Time): State {
    State(map["key" := 0], [Flight("key", 0, 1, Some(10), phase)], map[0 := Leading(0), 1 := Joining(0, deadline)],
          starts, now)
  }

  lemma JointReachable(budget: Time)
    requires budget > 0
    ensures Reachable(OneJoiner(Some(5 + budget), Scheduled, [], 5))
  {
    var s := State(map["key" := 0], [Flight("key", 0, 0, Some(10), Scheduled)], map[0 := Leading(0)], [], 0);
    assert Run(Init(0), []) == Some(Init(0));
    assert [] + s.flights == s.flights;
    Onward(Init(0), Call(0, "key", Some(10), 0), s);
    Onward(s, Tick(5), s.(now := 5));
    assert s.flights[0 := Flight("key", 0, 1, Some(10), Scheduled)] == [Flight("key", 0, 1, Some(10), Scheduled)];
    Onward(s.(now := 5), Call(1, "key", Some(budget), 5), OneJoiner(Some(5 + budget), Scheduled, [], 5));
  }

  lemma PhasesPass(d: Option<Time>)
    ensures Apply(OneJoiner(d, Scheduled, [], 5), StartFn(0)) == Some(OneJoiner(d, Working, [0], 5))
    ensures Apply(OneJoiner(d, Working, [0], 5), EndFn(0, Raises(TimeoutError)))
         == Some(OneJoiner(d, Done(Raises(TimeoutError)), [0], 5))
  {
    var was, now := Flight("key", 0, 1, Some(10), Scheduled), Flight("key", 0, 1, Some(10), Working);
    assert [was][0 := now] == [now] && [] + [0] == [0];
    assert [now][0 := now.(phase := Done(Raises(TimeoutError)))] == [now.(phase := Done(Raises(TimeoutError)))];
  }

  // So a joiner well before its deadline can be told that it has passed.
  lemma TimeoutMistaken() returns (s: State)
    ensures Reachable(s) && Mistaken(s, 1)
  {
    var d := Some(15);
    var done := OneJoiner(d, Done(Raises(TimeoutError)), [0], 5);
    JointReachable(10);
    PhasesPass(d);
    Onward(OneJoiner(d, Scheduled, [], 5), StartFn(0), OneJoiner(d, Working, [0], 5));
    Onward(OneJoiner(d, Working, [0], 5), EndFn(0, Raises(TimeoutError)), done);
    s := Leave(done, 1, 0, d, BudgetExhausted);
    Onward(done, JoinerWakes(1), s);
  }

  // ---- whose budget a joiner has ----

  // In every later state in which the joiner waits, it may give up exactly when
  // the flight's budget has run out.
  ghost predicate Inherits(s: State, id: CallerId, f: FlightId) {
    forall es :: InheritsAfter(s, es, id, f)
  }

  ghost predicate InheritsAfter(s: State, es: seq<Event>, id: CallerId, f: FlightId) {
    Run(s, es).Some? ==>
      var q := Run(s, es).value;
      id in q.callers && q.callers[id].Joining? && f < |q.flights| ==>
        (Apply(q, JoinerTimesOut(id)).Some? <==> Passed(q.flights[f].deadline, q.now))
  }

  lemma StepKeepsDeadlines(s: State, e: Event, id: CallerId, f: FlightId)
    requires Apply(s, e).Some? && id in s.callers && f < |s.flights|
    ensures var q := Apply(s, e).value;
      && f < |q.flights| && q.flights[f].deadline == s.flights[f].deadline && q.now >= s.now
      && id in q.callers && q.callers[id].flight == s.callers[id].flight
      && (q.callers[id].Joining? ==> q.callers[id] == s.callers[id])
  {
  }

  lemma {:induction false} RunKeepsDeadlines(s: State, es: seq<Event>, id: CallerId, f: FlightId)
    requires Run(s, es).Some? && id in s.callers && f < |s.flights|
    ensures var q := Run(s, es).value;
      && f < |q.flights| && q.flights[f].deadline == s.flights[f].deadline && q.now >= s.now
      && id in q.callers && q.callers[id].flight == s.callers[id].flight
      && (q.callers[id].Joining? ==> q.callers[id] == s.callers[id])
  {
    if es == [] {
    } else {
      var front := es[..|es| - 1];
      RunKeepsDeadlines(s, front, id, f);
      StepKeepsDeadlines(Run(s, front).value, es[|es| - 1], id, f);
    }
  }

  // Time passes and nothing else happens.
  lemma Later(s: State, now: Time)
    requires now >= s.now
    ensures Run(s, [Tick(now)]) == Some(s.(now := now))
  {
    assert [Tick(now)][..0] == [] && Run(s, []) == Some(s);
  }

  // A moment at which one of two different deadlines has passed.
  function Between(d: Option<Time>, e: Option<Time>, now: Time): (t: Time)
    requires d != e && !Passed(d, now)
    ensures t >= now && (Passed(d, t) <==> !Passed(e, t))
  {
    if e.None? then d.value
    else if d.None? then (if e.value > now then e.value else now)
    else if e.value < d.value then (if e.value > now then e.value else now)
    else d.value
  }

  // A joiner that waits inherits the flight's remaining budget exactly if its
  // own deadline, counted from its own call, is the flight's.
  lemma InheritsIff(s: State, id: CallerId)
    requires Reachable(s) && id in s.callers && s.callers[id].Joining? && !Passed(s.callers[id].deadline, s.now)
    ensures s.callers[id].flight < |s.flights|
    ensures var f := s.callers[id].flight; Inherits(s, id, f) <==> s.callers[id].deadline == s.flights[f].deadline
  {
    AlwaysInv(s);
    assert CallerOk(s.table, s.flights, id, s.callers[id]);
    var f := s.callers[id].flight;
    var d, e := s.callers[id].deadline, s.flights[f].deadline;
    if d == e {
      forall es
        ensures InheritsAfter(s, es, id, f)
      {
        if Run(s, es).Some? {
          RunKeepsDeadlines(s, es, id, f);
        }
      }
    } else {
      var t := Between(d, e, s.now);
      Later(s, t);
      assert !InheritsAfter(s, [Tick(t)], id, f);
    }
  }

  // What a call does: a joiner's deadline is its own, and one that has passed
  // turns it away whatever is left of the flight's budget.
  lemma CallsWithOwnBudget(s: State, id: CallerId, key: string, budget: Option<Time>, asked: Time)
    requires Reachable(s) && id !in s.callers && asked <= s.now && key in s.table
    ensures var q := Apply(s, Call(id, key, budget, asked)); var d := Deadline(budget, asked);
      && q.Some? && q.value.callers[id].flight == s.table[key]
      && (if Passed(d, s.now) then q.value.callers[id].Left? && q.value.callers[id].answer == BudgetExhausted
          else q.value.callers[id] == Joining(s.table[key], d))
  {
    AlwaysInv(s);
  }

  // A joiner that still waits, and may not give up, after the flight's budget
  // has run out.
  lemma OutlivesFlight() returns (s: State)
    ensures Reachable(s) && 1 in s.callers && s.callers[1].Joining? && |s.flights| == 1 && s.callers[1].flight == 0
    ensures Passed(s.flights[0].deadline, s.now) && Apply(s, JoinerTimesOut(1)).None?
  {
    JointReachable(10);
    s := OneJoiner(Some(15), Scheduled, [], 12);
    Onward(OneJoiner(Some(15), Scheduled, [], 5), Tick(12), s);
  }

  // A joiner's timeout ends no flight and disturbs no other caller.
  lemma TimeoutDisturbsNobody(s: State, id: CallerId)
    requires Reachable(s) && Apply(s, JoinerTimesOut(id)).Some?
    ensures var q := Apply(s, JoinerTimesOut(id)).value; var f := s.callers[id].flight;
      && q.table == s.table && q.starts == s.starts && |q.flights| == |s.flights|
      && (forall g: FlightId :: g < |s.flights| ==> q.flights[g].phase == s.flights[g].phase)
      && q.callers == s.callers[id := q.callers[id]]
      && q.flights[f].joiners == |Waiting(s.callers, f)| - 1
  {
    AlwaysInv(s);
  }

  // The joiner count is the number of waiting joiners.
  lemma JoinersAreCounted(s: State, f: FlightId)
    requires Reachable(s) && f < |s.flights|
    ensures s.flights[f].joiners == |Waiting(s.callers, f)|
  {
    AlwaysInv(s);
  }

  // Finalizing removes the caller's own flight, never a later one of the key;
  // until then, every caller of the key joins it.
  lemma FinalizeRemovesOwn(s: State, id: CallerId)
    requires Reachable(s) && id in s.callers && s.callers[id].Finalizing?
    ensures var f := s.callers[id].flight;
      && f < |s.flights| && s.flights[f].key in s.table && s.table[s.flights[f].key] == f
      && Apply(s, Finalize(id)).Some?
      && Apply(s, Finalize(id)).value.table == s.table - {s.flights[f].key}
  {
    AlwaysInv(s);
    assert CallerOk(s.table, s.flights, id, s.callers[id]);
  }

  lemma LateCallersJoin(s: State, id: CallerId, key: string, budget: Option<Time>, asked: Time, f: FlightId)
    requires Reachable(s) && id !in s.callers && asked <= s.now && f < |s.flights| && s.flights[f].key == key
    requires s.flights[f].leader in s.callers && Leads(s.callers[s.flights[f].leader])
    ensures var q := Apply(s, Call(id, key, budget, asked)).value;
      && q.callers[id].flight == f && !EverLed(q.callers[id])
      && q.starts == s.starts && |q.flights| == |s.flights|
  {
    AlwaysInv(s);
    assert FlightOk(s.table, s.flights, s.callers, f);
    assert CallerOk(s.table, s.flights, s.flights[f].leader, s.callers[s.flights[f].leader]);
  }
}
