// The worker pool (worker_pool.py): worker records, the warm-idle registry and
// the sandbox pool underneath them.
module WorkerPoolModel {
  import opened Wrappers
  import opened Model
  import opened Stores
  import P = PoolModel

  datatype Config = Config(pool: P.Config, maxWarmIdle: nat, idleTtl: Time, labels: Labels, node: Option<string>)

  // usedIds: every worker id ever registered (worker ids are never reused).
  datatype Registry = Registry(workers: Workers, usedIds: set<WorkerId>, warm: map<WorkerId, Time>, pool: P.Pool)

  // infer_sandbox_class
  function ClassOf(kind: string): SandboxClass {
    if kind == "firecracker" then MICROVM
    else if kind in {"gvisor", "kata", "sysbox", "docker"} then CONTAINER
    else VFS
  }

  function NewWorker(c: Config, id: WorkerId, kind: string, sb: P.Sandbox): Worker {
    Worker(id, ACTIVE, ClassOf(kind), 1, None, c.labels, c.node, Some(sb))
  }

  function Register(r: Registry, w: Worker): Registry {
    r.(workers := r.workers[w.workerId := w], usedIds := r.usedIds + {w.workerId})
  }

  // The worker pool, as a caller of the sandbox pool.
  const OWNER: P.Caller := 0

  // `SandboxPool.release` by the worker pool.
  function ReturnSandbox(c: Config, p: P.Pool, sb: P.Sandbox): P.Pool {
    P.ReleaseStep(c.pool, p, OWNER, sb, false)
  }

  // `_retire`: forget the worker and give its sandbox back.
  function Retire(c: Config, r: Registry, w: Worker): Registry {
    Registry(r.workers - {w.workerId}, r.usedIds, r.warm - {w.workerId},
             if w.sandbox.Some? then ReturnSandbox(c, r.pool, w.sandbox.value) else r.pool)
  }

  datatype Release = Released(reg: Registry) | Refused

  // release_worker; a worker that is gone counts as released.
  function ReleaseWorker(c: Config, r: Registry, w: Worker, drain: bool, alive: bool): Release {
    match WorkerRelease(r.workers, w.workerId, w.version)
    case WorkerMissing => Released(r)
    case WorkerConflict => Refused
    case WorkerBusy => Refused
    case WorkerStored(workers, rec) =>
      var r1 := r.(workers := workers);
      if drain || rec.sandbox.None? || !alive || |r.warm| >= c.maxWarmIdle then Released(Retire(c, r1, rec))
      else Released(r1.(warm := r.warm[w.workerId := r.pool.now]))
  }

  predicate WarmExpired(c: Config, r: Registry, id: WorkerId) {
    id in r.warm && r.pool.now - r.warm[id] > c.idleTtl
  }

  // Retire each listed worker that still has a record.
  function RetireAll(c: Config, r: Registry, ids: seq<WorkerId>): Registry {
    if ids == [] then r
    else
      var r1 := RetireAll(c, r, ids[..|ids| - 1]);
      var id := ids[|ids| - 1];
      if id in r1.workers then Retire(c, r1, r1.workers[id]) else r1
  }

  // The order in which the sweeper meets the expired warm workers.
  predicate IsSweepOrder(c: Config, r: Registry, order: seq<WorkerId>) {
    && (forall i, j :: 0 <= i < j < |order| ==> order[i] != order[j])
    && (forall id :: id in order ==> WarmExpired(c, r, id))
    && (forall id :: id in r.warm && WarmExpired(c, r, id) ==> id in order)
  }

  // `_sweep_once`
  function SweepWarm(c: Config, r: Registry, order: seq<WorkerId>): Registry {
    RetireAll(c, r.(warm := r.warm - (set id | id in order)), order)
  }
}
