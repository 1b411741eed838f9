// The Singleflight class (singleflight.py): the registry of flights and the
// flight records that leader and joiners share.
module Singleflights {
  import opened Wrappers
  import opened S = SingleflightModel

  datatype Role = Leader | Joiner | TurnedAway

  class Flight {
    const key: string
    const deadline: Option<Time>
    var joinerCount: int
    var completed: bool
    var outcome: Option<Outcome>

    constructor (k: string, d: Option<Time>)
      ensures key == k && deadline == d && joinerCount == 0 && !completed && outcome == None
    {
      key, deadline, joinerCount, completed, outcome := k, d, 0, false, None;
    }

    // This record is what the history says of the flight.
    ghost predicate Shows(f: S.Flight)
      reads this
    {
      && key == f.key && deadline == f.deadline && joinerCount == f.joiners && (completed <==> f.phase.Done?)
      && outcome == if f.phase.Done? then Some(f.phase.outcome) else None
    }
  }

  class Singleflight {
    var flights: map<string, Flight>
    // Every flight ever, by number, and the history of the callers.
    ghost var records: seq<Flight>
    ghost var state: State

    ghost predicate Valid()
      reads this, records
    {
      Inv(state) && Linked()
    }

    // The fields show the history.
    ghost predicate Linked()
      reads this, records
    {
      && |records| == |state.flights|
      && (forall i, j :: 0 <= i < j < |records| ==> records[i] != records[j])
      && (forall i :: 0 <= i < |records| ==> records[i].Shows(state.flights[i]))
      && flights.Keys == state.table.Keys
      && (forall key :: key in flights ==> state.table[key] < |records| && flights[key] == records[state.table[key]])
    }

    constructor (ghost now: Time)
      ensures Valid() && state == Init(now)
    {
      flights, records, state := map[], [], Init(now);
      new;
      assert Leaders(map[]) == {};
    }

    method Join(flight: Flight, deadline: Option<Time>, ghost id: CallerId)
      requires Linked() && flight.key in flights && flights[flight.key] == flight && !Passed(deadline, state.now)
      modifies this`state, flight`joinerCount
      ensures Linked() && state == S.Enter(old(state), id, flight.key, deadline)
    {
      flight.joinerCount := flight.joinerCount + 1;
      state := S.Enter(state, id, flight.key, deadline);
    }

    // The head of `_join` finds the budget spent.
    method TurnAway(flight: Flight, deadline: Option<Time>, ghost id: CallerId)
      requires Linked() && flight.key in flights && flights[flight.key] == flight && Passed(deadline, state.now)
      modifies this`state, flight`joinerCount
      ensures Linked() && state == S.Enter(old(state), id, flight.key, deadline)
    {
      flight.joinerCount := flight.joinerCount + 1;
      flight.joinerCount := flight.joinerCount - 1;
      state := S.Enter(state, id, flight.key, deadline);
    }

    method Lead(key: string, deadline: Option<Time>, ghost id: CallerId) returns (flight: Flight)
      requires Linked() && key !in flights
      modifies this
      ensures Linked() && state == S.Enter(old(state), id, key, deadline)
      ensures fresh(flight) && flight.key == key && flights == old(flights)[key := flight]
      ensures records == old(records) + [flight]
    {
      flight := new Flight(key, deadline);
      flights := flights[key := flight];
      records := records + [flight];
      state := S.Enter(state, id, key, deadline);
    }

    // The section of `run` under the lock, and the head of `_join`: join the
    // key's flight, be turned away from it, or lead a new one.
    method Enter(key: string, budget: Option<Time>, asked: Time, now: Time, ghost id: CallerId)
        returns (flight: Flight, role: Role)
      requires Valid() && id !in state.callers && asked <= now == state.now
      modifies this, records
      ensures Valid() && Apply(old(state), Call(id, key, budget, asked)) == Some(state)
      ensures role.Leader? <==> key !in old(flights)
      ensures role.Leader? ==> fresh(flight) && records == old(records) + [flight]
      ensures !role.Leader? ==> records == old(records) && flight == old(flights)[key]
      ensures role.TurnedAway? <==> key in old(flights) && Passed(Deadline(budget, asked), now)
      ensures key in flights && flights[key] == flight
    {
      StepSafe(state, Call(id, key, budget, asked));
      var deadline := if budget.Some? then Some(asked + budget.value) else None;
      if key !in flights {
        flight := Lead(key, deadline, id);
        role := Leader;
      } else {
        flight := flights[key];
        assert flight == records[state.table[key]];
        if deadline.Some? && deadline.value - now <= 0 {
          TurnAway(flight, deadline, id);
          role := TurnedAway;
        } else {
          Join(flight, deadline, id);
          role := Joiner;
        }
      }
    }

    // The end of `_lead`: cache how `fn` ended.
    method Complete(flight: Flight, o: Outcome, ghost f: FlightId)
      requires Valid() && f < |records| && records[f] == flight && state.flights[f].phase.Working?
      modifies this`state, flight
      ensures Valid() && Apply(old(state), EndFn(f, o)) == Some(state)
    {
      StepSafe(state, EndFn(f, o));
      flight.outcome := Some(o);
      flight.completed := true;
      state := Apply(state, EndFn(f, o)).value;
    }

    // `_join` once the flight is done: share its outcome.
    method Share(flight: Flight, deadline: Option<Time>, ghost id: CallerId) returns (answer: Answer)
      requires Valid() && id in state.callers && state.callers[id].Joining? && state.callers[id].deadline == deadline
      requires state.callers[id].flight < |records| && records[state.callers[id].flight] == flight
      requires flight.outcome.Some?
      modifies this`state, flight
      ensures Valid() && Apply(old(state), JoinerWakes(id)) == Some(state)
      ensures state.callers[id].Left? && state.callers[id].answer == answer
    {
      StepSafe(state, JoinerWakes(id));
      if deadline.Some? && flight.outcome.value == Raises(TimeoutError) {
        answer := BudgetExhausted;
      } else {
        answer := Shared(flight.outcome.value);
      }
      flight.joinerCount := flight.joinerCount - 1;
      state := Apply(state, JoinerWakes(id)).value;
    }

    // `_join` giving up: only the joiner count changes.
    method GiveUp(flight: Flight, ghost id: CallerId) returns (answer: Answer)
      requires Valid() && id in state.callers && state.callers[id].Joining?
      requires Passed(state.callers[id].deadline, state.now)
      requires state.callers[id].flight < |records| && records[state.callers[id].flight] == flight
      modifies this`state, flight`joinerCount
      ensures Valid() && Apply(old(state), JoinerTimesOut(id)) == Some(state) && answer == BudgetExhausted
    {
      StepSafe(state, JoinerTimesOut(id));
      flight.joinerCount := flight.joinerCount - 1;
      answer := BudgetExhausted;
      state := Apply(state, JoinerTimesOut(id)).value;
    }

    // `_finalize`: the entry it pops is the leader's own flight.
    method Finish(flight: Flight, ghost id: CallerId)
      requires Valid() && id in state.callers && state.callers[id].Finalizing?
      requires state.callers[id].flight < |records| && records[state.callers[id].flight] == flight
      modifies this
      ensures Valid() && Apply(old(state), Finalize(id)) == Some(state)
      ensures flight.key in old(flights) && old(flights)[flight.key] == flight
      ensures flights == old(flights) - {flight.key}
    {
      assert CallerOk(state.table, state.flights, id, state.callers[id]);
      StepSafe(state, Finalize(id));
      flights := flights - {flight.key};
      state := Apply(state, Finalize(id)).value;
    }
  }
}
