// The WorkerPool class (worker_pool.py) over its worker store and sandbox pool.
module WorkerPools {
  import opened Wrappers
  import opened Collections
  import opened Model
  import opened Stores
  import opened InMemoryStores
  import opened SandboxPools
  import opened W = WorkerPoolModel
  import P = PoolModel

  // What `acquire_worker` finds in the store: a worker, or none eligible.
  datatype Picked = Idle(worker: Worker) | NoneIdle

  class WorkerPool {
    const config: Config
    const store: InMemoryWorkerStore
    const sandboxes: SandboxPool
    var warm: map<WorkerId, Time>
    ghost var usedIds: set<WorkerId>

    constructor (c: Config, s: InMemoryWorkerStore, p: SandboxPool)
      requires p.config == c.pool && p.Valid() && s.workers == map[]
      ensures Valid() && config == c && store == s && sandboxes == p && Reg() == Registry(map[], {}, map[], p.pool)
    {
      config, store, sandboxes, warm, usedIds := c, s, p, map[], {};
    }

    ghost function Reg(): Registry
      reads this, store, sandboxes
    {
      Registry(store.workers, usedIds, warm, sandboxes.pool)
    }

    ghost predicate Valid()
      reads this, store, sandboxes
    {
      && sandboxes.config == config.pool && sandboxes.Valid()
      && (forall id :: id in store.workers ==> store.workers[id].workerId == id && Returnable(store.workers[id]))
    }

    // The worker's sandbox is not lent to anyone else.
    ghost predicate Returnable(w: Worker)
      reads sandboxes
    {
      w.sandbox.Some? ==> P.Rightful(sandboxes.pool, P.ReleaseBy(OWNER, w.sandbox.value, false))
    }

    // The first half of `acquire_worker`: any eligible idle worker, taken off
    // the warm registry.
    method PickIdle(constraints: Constraints) returns (r: Picked)
      requires Valid()
      modifies this`warm
      ensures Valid()
      ensures match r
        case Idle(w) =>
          && Eligible(store.workers, constraints, w.workerId) && store.workers[w.workerId] == w
          && Reg() == old(Reg()).(warm := old(warm) - {w.workerId})
        case NoneIdle =>
          Reg() == old(Reg()) && forall id :: id in store.workers ==> !Eligible(store.workers, constraints, id)
    {
      var idle := store.ListIdle(constraints);
      if idle == [] {
        return NoneIdle;
      }
      assert idle[0] in idle;
      var picked :| picked in idle;
      warm := warm - {picked};
      r := Idle(store.workers[picked]);
    }

    // `acquire_worker` up to its first wait: an idle worker, or else a call of the
    // sandbox pool's `acquire`.
    method BeginAcquire(constraints: Constraints, ghost id: P.OpId) returns (r: Picked)
      requires Valid() && id !in sandboxes.pool.ops
      modifies this`warm, sandboxes`pool
      ensures Valid()
      ensures match r
        case Idle(w) =>
          && Eligible(store.workers, constraints, w.workerId) && store.workers[w.workerId] == w
          && Reg() == old(Reg()).(warm := old(warm) - {w.workerId})
        case NoneIdle =>
          && (forall w :: w in store.workers ==> !Eligible(store.workers, constraints, w))
          && Reg() == old(Reg()).(pool := P.BeginAcquire(old(sandboxes.pool), id))
    {
      r := PickIdle(constraints);
      if r.NoneIdle? {
        sandboxes.RecordStart(id);
      }
    }

    // The second half: wrap a sandbox from the pool into a registered worker.
    method Materialise(sandbox: P.Sandbox, kind: string, unused: WorkerId) returns (w: Worker)
      requires Valid() && P.HeldBy(sandboxes.pool, OWNER, sandbox) && unused !in usedIds && unused !in store.workers
      modifies this, store
      ensures Valid()
      ensures w == NewWorker(config, unused, kind, sandbox) && Reg() == W.Register(old(Reg()), w)
    {
      w := Worker(unused, ACTIVE, ClassOf(kind), 1, None, config.labels, config.node, Some(sandbox));
      usedIds := usedIds + {unused};
      var ok := store.Register(w);
    }

    // The sandbox pool's `acquire` returns to this pool, or raises.
    ghost method RecordReturn(id: P.OpId, got: Option<P.Sandbox>)
      requires Valid() && id in sandboxes.pool.ops
      requires sandboxes.pool.ops[id] == if got.Some? then P.AcqDone(got.value) else P.AcqRaised
      modifies sandboxes`pool
      ensures Valid()
      ensures Reg() == old(Reg()).(pool := if got.Some? then P.HandOut(old(sandboxes.pool), id, got.value, OWNER)
                                           else P.Finish(old(sandboxes.pool), id))
    {
      sandboxes.RecordReturn(id, OWNER, got);
    }

    method ClaimForActor(worker: Worker, assignment: Assignment) returns (r: WorkerWrite)
      requires Valid()
      modifies store
      ensures Valid()
      ensures r == WorkerClaim(old(store.workers), worker.workerId, assignment, worker.version)
      ensures Reg() == if r.WorkerStored? then old(Reg()).(workers := r.workers) else old(Reg())
    {
      r := store.Claim(worker.workerId, assignment, worker.version);
    }

    method RetireWorker(worker: Worker, now: Time)
      requires Valid() && now == sandboxes.pool.now && Returnable(worker)
      modifies this, store, sandboxes
      ensures Valid() && sandboxes.pool.now == now
      ensures Reg() == W.Retire(config, old(Reg()), worker)
    {
      warm := warm - {worker.workerId};
      store.Delete(worker.workerId);
      if worker.sandbox.Some? {
        var close := sandboxes.Release(OWNER, worker.sandbox.value, false, now);
      }
    }

    // False is the version conflict raised to the caller.
    method Release(worker: Worker, drain: bool, alive: bool, now: Time) returns (ok: bool)
      requires Valid() && now == sandboxes.pool.now
      modifies this, store, sandboxes
      ensures Valid()
      ensures match W.ReleaseWorker(config, old(Reg()), worker, drain, alive)
        case Released(reg) => ok && Reg() == reg
        case Refused => !ok && Reg() == old(Reg())
    {
      var released := store.Release(worker.workerId, worker.version);
      if released.WorkerMissing? {
        return true;
      }
      if !released.WorkerStored? {
        return false;
      }
      var rec := released.worker;
      if drain || rec.sandbox.None? || !alive || |warm| >= config.maxWarmIdle {
        RetireWorker(rec, now);
      } else {
        warm := warm[rec.workerId := now];
      }
      return true;
    }

    // The warm workers idle for too long, each once.
    method ExpiredIds(now: Time) returns (expired: seq<WorkerId>)
      requires now == sandboxes.pool.now
      ensures IsSweepOrder(config, Reg(), expired)
    {
      expired := [];
      var todo := warm.Keys;
      while todo != {}
        invariant todo <= warm.Keys && NoDup(expired)
        invariant forall id :: id in expired <==> id !in todo && WarmExpired(config, Reg(), id)
        decreases |todo|
      {
        var id :| id in todo;
        todo := todo - {id};
        if now - warm[id] > config.idleTtl {
          expired := expired + [id];
        }
      }
    }

    // One tick of the retire sweeper.
    method SweepOnce(now: Time) returns (expired: seq<WorkerId>)
      requires Valid() && now == sandboxes.pool.now
      modifies this, store, sandboxes
      ensures Valid()
      ensures IsSweepOrder(config, old(Reg()), expired)
      ensures Reg() == W.SweepWarm(config, old(Reg()), expired)
    {
      expired := ExpiredIds(now);
      warm := warm - (set id | id in expired);
      ghost var start := Reg();
      var i := 0;
      while i < |expired|
        invariant i <= |expired| && Valid() && sandboxes.pool.now == now
        invariant Reg() == RetireAll(config, start, expired[..i])
      {
        assert expired[..i + 1][..i] == expired[..i];
        if expired[i] in store.workers {
          RetireWorker(store.workers[expired[i]], now);
        }
        i := i + 1;
      }
      assert expired[..i] == expired;
    }
  }
}
