// The in-memory stores of store.py: dictionaries that methods update in place.
module InMemoryStores {
  import opened Wrappers
  import opened Collections
  import opened Model
  import opened Stores

  // A read of the store: the record, or the not-found exception.
  datatype Lookup<T> = Found(record: T) | NotFound

  class InMemoryActorStore {
    var actors: Actors

    // Records are stored under their own name.
    ghost predicate Valid()
      reads this
    {
      forall ref :: ref in actors ==> actors[ref].Ref() == ref
    }

    constructor ()
      ensures Valid() && actors == map[]
    {
      actors := map[];
    }

    method Get(ref: ActorRef) returns (r: Lookup<Actor>)
      ensures r == if ref in actors then Found(actors[ref]) else NotFound
    {
      if ref !in actors {
        return NotFound;
      }
      return Found(actors[ref]);
    }

    // On a conflict or a missing record the table is untouched; otherwise it
    // holds the new record, with its version bumped.
    method Put(actor: Actor, expected: Option<nat>, now: Time) returns (r: ActorWrite)
      requires Valid()
      modifies this
      ensures Valid()
      ensures r == ActorPut(old(actors), actor, expected, now)
      ensures actors == if r.ActorStored? then r.actors else old(actors)
    {
      var key := actor.Ref();
      var version := 1;
      if expected.None? {
        if key in actors {
          return ActorConflict;
        }
      } else {
        if key !in actors {
          return ActorMissing;
        }
        if actors[key].version != expected.value {
          return ActorConflict;
        }
        version := actors[key].version + 1;
      }
      var stored := actor.(version := version);
      if stored.createdAt == 0 {
        stored := stored.(createdAt := now);
      }
      stored := stored.(updatedAt := now);
      actors := actors[key := stored];
      r := ActorStored(actors, stored);
    }

    method Delete(ref: ActorRef)
      requires Valid()
      modifies this
      ensures Valid()
      ensures actors == old(actors) - {ref}
    {
      actors := actors - {ref};
    }

    // Each matching record once, in no particular order.
    method List(namespace: Option<string>) returns (r: seq<Actor>)
      requires Valid()
      ensures NoDup(r)
      ensures forall a :: a in r <==>
        a.Ref() in actors && actors[a.Ref()] == a && (namespace.None? || namespace.value == a.namespace)
    {
      r := [];
      var todo := actors.Keys;
      while todo != {}
        invariant todo <= actors.Keys && NoDup(r)
        invariant forall a :: a in r <==>
          a.Ref() in actors.Keys - todo && actors[a.Ref()] == a && (namespace.None? || namespace.value == a.namespace)
        decreases |todo|
      {
        var ref :| ref in todo;
        todo := todo - {ref};
        if namespace.None? || namespace.value == ref.namespace {
          r := r + [actors[ref]];
        }
      }
    }
  }

  class InMemoryWorkerStore {
    var workers: Workers

    constructor ()
      ensures workers == map[]
    {
      workers := map[];
    }

    method Get(id: WorkerId) returns (r: Lookup<Worker>)
      ensures r == if id in workers then Found(workers[id]) else NotFound
    {
      if id !in workers {
        return NotFound;
      }
      return Found(workers[id]);
    }

    // False is the conflict raised for an id already present.
    method Register(worker: Worker) returns (ok: bool)
      modifies this
      ensures ok <==> worker.workerId !in old(workers)
      ensures workers == if ok then old(workers)[worker.workerId := worker] else old(workers)
    {
      if worker.workerId in workers {
        return false;
      }
      workers := workers[worker.workerId := worker];
      return true;
    }

    method Claim(id: WorkerId, assignment: Assignment, expected: nat) returns (r: WorkerWrite)
      modifies this
      ensures r == WorkerClaim(old(workers), id, assignment, expected)
      ensures workers == if r.WorkerStored? then r.workers else old(workers)
    {
      if id !in workers {
        return WorkerMissing;
      }
      var existing := workers[id];
      if existing.version != expected {
        return WorkerConflict;
      }
      if !existing.state.ACTIVE? {
        return WorkerBusy;
      }
      if existing.assignment.Some? {
        return WorkerBusy;
      }
      var stored := existing.(assignment := Some(assignment), version := existing.version + 1);
      workers := workers[id := stored];
      r := WorkerStored(workers, stored);
    }

    method Release(id: WorkerId, expected: nat) returns (r: WorkerWrite)
      modifies this
      ensures r == WorkerRelease(old(workers), id, expected)
      ensures workers == if r.WorkerStored? then r.workers else old(workers)
    {
      if id !in workers {
        return WorkerMissing;
      }
      var existing := workers[id];
      if existing.version != expected {
        return WorkerConflict;
      }
      var stored := existing.(assignment := None, version := existing.version + 1);
      workers := workers[id := stored];
      r := WorkerStored(workers, stored);
    }

    method SetState(id: WorkerId, state: WorkerState, expected: nat) returns (r: WorkerWrite)
      modifies this
      ensures r == WorkerSetState(old(workers), id, state, expected)
      ensures workers == if r.WorkerStored? then r.workers else old(workers)
    {
      if id !in workers {
        return WorkerMissing;
      }
      var existing := workers[id];
      if existing.version != expected {
        return WorkerConflict;
      }
      var stored := existing.(state := state, version := existing.version + 1);
      workers := workers[id := stored];
      r := WorkerStored(workers, stored);
    }

    // Exactly the eligible workers, each once, in no particular order.
    method ListIdle(constraints: Constraints) returns (r: seq<WorkerId>)
      ensures NoDup(r)
      ensures forall id :: id in r <==> Eligible(workers, constraints, id)
    {
      r := [];
      var todo := workers.Keys;
      while todo != {}
        invariant todo <= workers.Keys && NoDup(r)
        invariant forall id :: id in r <==> id !in todo && Eligible(workers, constraints, id)
        decreases |todo|
      {
        var id :| id in todo;
        todo := todo - {id};
        if workers[id].IsIdle() && Matches(workers[id], constraints) {
          r := r + [id];
        }
      }
    }

    method Delete(id: WorkerId)
      modifies this
      ensures workers == old(workers) - {id}
    {
      workers := workers - {id};
    }
  }

  // ---- what compare-and-swap gives its callers ----

  // Of two writes expecting the same version, the second is refused, whatever
  // it writes.
  lemma SecondActorWriteConflicts(m: Actors, a: Actor, b: Actor, expected: Option<nat>, at: Time, at': Time)
    requires a.Ref() == b.Ref() && ActorPut(m, a, expected, at).ActorStored?
    ensures ActorPut(ActorPut(m, a, expected, at).actors, b, expected, at') == ActorConflict
  {
  }

  // The same among claims, releases and state changes of one worker: whoever
  // comes second with the same version loses.
  lemma SecondWorkerWriteConflicts(m: Workers, id: WorkerId, expected: nat, first: WorkerWrite, a: Assignment,
                                   st: WorkerState)
    requires first.WorkerStored?
    requires
      || (exists b :: first == WorkerClaim(m, id, b, expected))
      || first == WorkerRelease(m, id, expected)
      || (exists t :: first == WorkerSetState(m, id, t, expected))
    ensures WorkerClaim(first.workers, id, a, expected) == WorkerConflict
    ensures WorkerRelease(first.workers, id, expected) == WorkerConflict
    ensures WorkerSetState(first.workers, id, st, expected) == WorkerConflict
  {
  }

  // Claim and release undo each other, up to the version.
  lemma ReleaseUndoesClaim(m: Workers, id: WorkerId, a: Assignment, expected: nat)
    requires WorkerClaim(m, id, a, expected).WorkerStored?
    ensures var claimed := WorkerClaim(m, id, a, expected).workers;
      WorkerRelease(claimed, id, expected + 1).WorkerStored?
      && WorkerRelease(claimed, id, expected + 1).workers == m[id := m[id].(version := expected + 2)]
  {
  }
}
