// The compare-and-swap stores of store.py and the routing table of router.py.
module Stores {
  import opened Wrappers
  import opened Model

  type Actors = map<ActorRef, Actor>
  type Workers = map<WorkerId, Worker>

  // ---- actor store ----

  // The outcome of a write: the new table and the stored record, or the
  // exception raised.
  datatype ActorWrite = ActorStored(actors: Actors, actor: Actor) | ActorConflict | ActorMissing

  // `put` inserts when no version is expected and otherwise replaces the
  // record whose version matches.
  function ActorPut(m: Actors, a: Actor, expected: Option<nat>, at: Time): ActorWrite {
    if expected.None? then
      if a.Ref() in m then ActorConflict else Stored(m, a, 1, at)
    else if a.Ref() !in m then ActorMissing
    else if m[a.Ref()].version != expected.value then ActorConflict
    else Stored(m, a, expected.value + 1, at)
  }

  function Stored(m: Actors, a: Actor, version: nat, at: Time): ActorWrite {
    var stored := a.(version := version, createdAt := if a.createdAt == 0 then at else a.createdAt, updatedAt := at);
    ActorStored(m[a.Ref() := stored], stored)
  }

  // ---- worker store ----

  datatype WorkerWrite = WorkerStored(workers: Workers, worker: Worker) | WorkerConflict | WorkerBusy | WorkerMissing

  function WorkerUpdate(m: Workers, id: WorkerId, w: Worker): WorkerWrite {
    var stored := w.(version := w.version + 1);
    WorkerStored(m[id := stored], stored)
  }

  function WorkerClaim(m: Workers, id: WorkerId, a: Assignment, expected: nat): WorkerWrite {
    if id !in m then WorkerMissing
    else if m[id].version != expected then WorkerConflict
    else if m[id].state.DRAINING? || m[id].assignment.Some? then WorkerBusy
    else WorkerUpdate(m, id, m[id].(assignment := Some(a)))
  }

  function WorkerRelease(m: Workers, id: WorkerId, expected: nat): WorkerWrite {
    if id !in m then WorkerMissing
    else if m[id].version != expected then WorkerConflict
    else WorkerUpdate(m, id, m[id].(assignment := None))
  }

  function WorkerSetState(m: Workers, id: WorkerId, st: WorkerState, expected: nat): WorkerWrite {
    if id !in m then WorkerMissing
    else if m[id].version != expected then WorkerConflict
    else WorkerUpdate(m, id, m[id].(state := st))
  }

  predicate Selects(selector: Labels, labels: Labels) {
    forall k :: k in selector ==> k in labels && labels[k] == selector[k]
  }

  predicate Matches(w: Worker, c: Constraints) {
    && w.sandboxClass == c.sandboxClass
    && (c.requiredNode.Some? ==> w.node == c.requiredNode)
    && Selects(c.templateSelector, w.labels)
    && Selects(c.actorSelector, w.labels)
  }

  predicate Eligible(m: Workers, c: Constraints, id: WorkerId) {
    id in m && m[id].IsIdle() && Matches(m[id], c)
  }
}
