// SandboxPool (_pool.py) as a transition system.
//
// `Core` holds the fields of the class; the functions on it are the sections
// that run under the pool's lock.  `Pool` adds the coroutines in flight: each
// suspended `acquire`, prewarm tick and sweep tick is one operation in `ops`,
// and one event runs one operation from one suspension point to the next.
module PoolModel {
  import opened Wrappers
  import opened Collections

  type Sandbox = nat
  type Time = int
  type OpId = nat
  type Caller = nat

  datatype Entry = Entry(sb: Sandbox, at: Time)

  // The constructor's arguments; `probing` says whether a health check is set.
  datatype Config = Config(maxSize: nat, minWarm: nat, idleTtl: Time, lifo: bool, probing: bool, maxProvisions: nat)

  predicate ValidConfig(c: Config) {
    1 <= c.maxSize && c.minWarm <= c.maxSize
  }

  datatype Core = Core(free: seq<Entry>, inUse: set<Sandbox>, pending: int)

  function Total(k: Core): int {
    |k.free| + |k.inUse| + k.pending
  }

  function Sandboxes(es: seq<Entry>): (r: seq<Sandbox>)
    ensures |r| == |es|
    ensures forall i :: 0 <= i < |es| ==> r[i] == es[i].sb
  {
    seq(|es|, i requires 0 <= i < |es| => es[i].sb)
  }

  // ---- sections under the lock ----

  // The entry `acquire` pops: the newest under lifo, the oldest under fifo.
  function PopIndex(c: Config, k: Core): nat
    requires k.free != []
  {
    if c.lifo then |k.free| - 1 else 0
  }

  function Reserve(c: Config, k: Core): (r: (Core, Sandbox))
    requires k.free != []
  {
    var i := PopIndex(c, k);
    (k.(free := k.free[..i] + k.free[i + 1..], inUse := k.inUse + {k.free[i].sb}), k.free[i].sb)
  }

  // `release`: the new core, and whether the sandbox has to be closed.
  function Release(c: Config, k: Core, sb: Sandbox, broken: bool, now: Time): (Core, bool) {
    if sb !in k.inUse then (k, false)
    else
      var k1 := k.(inUse := k.inUse - {sb});
      if broken || |k1.free| >= c.maxSize then (k1, true)
      else (k1.(free := k1.free + [Entry(sb, now)]), false)
  }

  predicate Expired(c: Config, e: Entry, now: Time) {
    now - e.at > c.idleTtl
  }

  // One sweep tick over the free list: survivors and victims, in order.
  function Sweep(c: Config, es: seq<Entry>, now: Time): (r: (seq<Entry>, seq<Sandbox>)) {
    if es == [] then ([], [])
    else
      var (keep, drop) := Sweep(c, es[..|es| - 1], now);
      var e := es[|es| - 1];
      if Expired(c, e, now) then (keep, drop + [e.sb]) else (keep + [e], drop)
  }

  function Min(a: int, b: int): int {
    if a < b then a else b
  }

  // How many sandboxes one prewarm tick sets out to provision.
  function Deficit(c: Config, k: Core): int {
    if c.minWarm == 0 then 0
    else Min(c.minWarm - |k.free|, c.maxSize - Total(k))
  }

  // ---- the transition system ----

  datatype Op =
    | AcqLoop                  // about to enter the locked section of acquire
    | AcqWait                  // blocked on the condition
    | AcqQueued                // slot reserved, waiting for the provision semaphore
    | AcqBooting               // inside the factory
    | AcqBooted(sb: Sandbox)   // factory returned, slot not yet converted
    | AcqFailed                // factory raised, slot not yet given up
    | AcqProbe(sb: Sandbox)    // health check in flight
    | AcqClosing               // tearing a failed candidate down
    | AcqDone(sb: Sandbox)     // returning sb to the caller
    | AcqRaised                // raising to the caller
    | WarmLoop(left: nat)
    | WarmQueued(left: nat)
    | WarmBooting(left: nat)
    | WarmBooted(sb: Sandbox, left: nat)
    | WarmFailed
    | WarmClosing(left: nat)
    | SweepClosing(victims: seq<Sandbox>)

  // held: who was handed which sandbox and has not released it.  closed: close
  // calls, in order.  made: everything the factory ever returned.
  datatype Pool = Pool(core: Core, ops: map<OpId, Op>, held: map<Sandbox, Caller>, closed: seq<Sandbox>,
                       made: set<Sandbox>, now: Time)

  datatype Event =
    | Tick(now: Time)
    | StartAcquire(id: OpId)
    | EnterAcquire(id: OpId)
    | WakeWaiter(id: OpId)
    | TimeoutWaiter(id: OpId)
    | EnterFactory(id: OpId)
    | FactoryReturns(id: OpId, sb: Sandbox)
    | FactoryRaises(id: OpId)
    | FinishProvision(id: OpId)
    | GiveUpSlot(id: OpId)
    | ProbePasses(id: OpId)
    | ProbeFails(id: OpId)
    | CloseReturns(id: OpId)
    | Take(id: OpId, caller: Caller)
    | Raise(id: OpId)
    | ReleaseBy(caller: Caller, sb: Sandbox, broken: bool)
    | StartSweep(id: OpId)
    | CloseVictim(id: OpId)
    | StartPrewarm(id: OpId)
    | ReserveWarm(id: OpId)

  // Events a caller of the pool takes part in; all others are internal.
  predicate External(e: Event) {
    e.StartAcquire? || e.Take? || e.Raise? || e.ReleaseBy?
  }

  predicate Provisioning(op: Op) {
    || op.AcqQueued? || op.AcqBooting? || op.AcqBooted? || op.AcqFailed?
    || op.WarmQueued? || op.WarmBooting? || op.WarmBooted? || op.WarmFailed?
  }

  predicate Booting(op: Op) {
    op.AcqBooting? || op.WarmBooting?
  }

  // Operations that count a sandbox in `_in_use` on behalf of their caller.
  predicate Reserving(op: Op) {
    op.AcqProbe? || op.AcqDone?
  }

  // The sandboxes an operation has in its hands.
  function InHand(op: Op): set<Sandbox> {
    match op
    case AcqBooted(sb) => {sb}
    case AcqProbe(sb) => {sb}
    case AcqDone(sb) => {sb}
    case WarmBooted(sb, _) => {sb}
    case SweepClosing(victims) => SetOf(victims)
    case _ => {}
  }

  function ProvisionIds(ops: map<OpId, Op>): set<OpId> {
    set id | id in ops && Provisioning(ops[id])
  }

  function BootingIds(ops: map<OpId, Op>): set<OpId> {
    set id | id in ops && Booting(ops[id])
  }

  function Init(now: Time): Pool {
    Pool(Core([], {}, 0), map[], map[], [], {}, now)
  }

  function Goto(p: Pool, id: OpId, op: Op): Pool {
    p.(ops := p.ops[id := op])
  }

  function Finish(p: Pool, id: OpId): Pool {
    p.(ops := p.ops - {id})
  }

  function BeginAcquire(p: Pool, id: OpId): Pool {
    Goto(p, id, AcqLoop)
  }

  // `acquire` returns sb to its caller.
  function HandOut(p: Pool, id: OpId, sb: Sandbox, caller: Caller): Pool {
    Finish(p.(held := p.held[sb := caller]), id)
  }

  // The locked section of `acquire`.
  function AcquireSection(c: Config, p: Pool, id: OpId): Pool {
    if p.core.free != [] then
      var (k, sb) := Reserve(c, p.core);
      Goto(p.(core := k), id, if c.probing then AcqProbe(sb) else AcqDone(sb))
    else if Total(p.core) < c.maxSize then
      Goto(p.(core := p.core.(pending := p.core.pending + 1)), id, AcqQueued)
    else Goto(p, id, AcqWait)
  }

  // The re-check and reservation at the head of each prewarm iteration.
  function PrewarmSection(c: Config, p: Pool, id: OpId, left: nat): Pool {
    if left == 0 || Total(p.core) >= c.maxSize then Finish(p, id)
    else Goto(p.(core := p.core.(pending := p.core.pending + 1)), id, WarmQueued(left - 1))
  }

  function FinishWarm(c: Config, p: Pool, id: OpId, sb: Sandbox, left: nat): Pool {
    var k := p.core.(pending := p.core.pending - 1);
    if |k.free| >= c.maxSize then
      Goto(p.(core := k, closed := p.closed + [sb]), id, WarmClosing(left))
    else
      Goto(p.(core := k.(free := k.free + [Entry(sb, p.now)])), id, WarmLoop(left))
  }

  // One event; None when it is not enabled.
  function Apply(c: Config, p: Pool, e: Event): Option<Pool> {
    match e
    case Tick(now) =>
      if now >= p.now then Some(p.(now := now)) else None
    case StartAcquire(id) =>
      if id !in p.ops then Some(BeginAcquire(p, id)) else None
    case EnterAcquire(id) =>
      if id in p.ops && p.ops[id].AcqLoop? then Some(AcquireSection(c, p, id)) else None
    case WakeWaiter(id) =>
      if id in p.ops && p.ops[id].AcqWait? && p.core.free != [] then Some(Goto(p, id, AcqLoop)) else None
    case TimeoutWaiter(id) =>
      if id in p.ops && p.ops[id].AcqWait? then Some(Goto(p, id, AcqRaised)) else None
    case EnterFactory(id) =>
      if id in p.ops && (c.maxProvisions == 0 || |BootingIds(p.ops)| < c.maxProvisions) then
        (match p.ops[id]
         case AcqQueued => Some(Goto(p, id, AcqBooting))
         case WarmQueued(left) => Some(Goto(p, id, WarmBooting(left)))
         case _ => None)
      else None
    case FactoryReturns(id, sb) =>
      if id in p.ops && sb !in p.made then
        (match p.ops[id]
         case AcqBooting => Some(Goto(p.(made := p.made + {sb}), id, AcqBooted(sb)))
         case WarmBooting(left) => Some(Goto(p.(made := p.made + {sb}), id, WarmBooted(sb, left)))
         case _ => None)
      else None
    case FactoryRaises(id) =>
      if id in p.ops then
        (match p.ops[id]
         case AcqBooting => Some(Goto(p, id, AcqFailed))
         case WarmBooting(_) => Some(Goto(p, id, WarmFailed))
         case _ => None)
      else None
    case GiveUpSlot(id) =>
      if id in p.ops then
        var p1 := p.(core := p.core.(pending := p.core.pending - 1));
        (match p.ops[id]
         case AcqFailed => Some(Goto(p1, id, AcqRaised))
         case WarmFailed => Some(Finish(p1, id))
         case _ => None)
      else None
    case FinishProvision(id) =>
      if id in p.ops then
        (match p.ops[id]
         case AcqBooted(sb) =>
           Some(Goto(p.(core := p.core.(pending := p.core.pending - 1, inUse := p.core.inUse + {sb})), id, AcqDone(sb)))
         case WarmBooted(sb, left) => Some(FinishWarm(c, p, id, sb, left))
         case _ => None)
      else None
    case ProbePasses(id) =>
      if id in p.ops && p.ops[id].AcqProbe? then Some(Goto(p, id, AcqDone(p.ops[id].sb))) else None
    case ProbeFails(id) =>
      if id in p.ops && p.ops[id].AcqProbe? then
        var sb := p.ops[id].sb;
        Some(Goto(p.(core := p.core.(inUse := p.core.inUse - {sb}), closed := p.closed + [sb]), id, AcqClosing))
      else None
    case CloseReturns(id) =>
      if id !in p.ops then None
      else
        (match p.ops[id]
         case AcqClosing => Some(Goto(p, id, AcqLoop))
         case WarmClosing(left) => Some(Goto(p, id, WarmLoop(left)))
         case _ => None)
    case Take(id, caller) =>
      if id in p.ops && p.ops[id].AcqDone? then Some(HandOut(p, id, p.ops[id].sb, caller)) else None
    case Raise(id) =>
      if id in p.ops && p.ops[id].AcqRaised? then Some(Finish(p, id)) else None
    case ReleaseBy(caller, sb, broken) => Some(ReleaseStep(c, p, caller, sb, broken))
    case StartSweep(id) =>
      if id in p.ops then None
      else
        var (keep, drop) := Sweep(c, p.core.free, p.now);
        Some(Goto(p.(core := p.core.(free := keep)), id, SweepClosing(drop)))
    case CloseVictim(id) =>
      if id in p.ops && p.ops[id].SweepClosing? then
        var vs := p.ops[id].victims;
        if vs == [] then Some(Finish(p, id))
        else Some(Goto(p.(closed := p.closed + [vs[0]]), id, SweepClosing(vs[1..])))
      else None
    case StartPrewarm(id) =>
      if id in p.ops then None
      else if Deficit(c, p.core) <= 0 then Some(p)
      else Some(Goto(p, id, WarmLoop(Deficit(c, p.core))))
    case ReserveWarm(id) =>
      if id in p.ops && p.ops[id].WarmLoop? then Some(PrewarmSection(c, p, id, p.ops[id].left)) else None
  }

  predicate HeldBy(p: Pool, caller: Caller, sb: Sandbox) {
    sb in p.held && p.held[sb] == caller
  }

  // `release` called by anyone: the pool does not ask whose the sandbox is.
  function ReleaseStep(c: Config, p: Pool, caller: Caller, sb: Sandbox, broken: bool): Pool {
    var (k, close) := Release(c, p.core, sb, broken, p.now);
    p.(core := k, held := if HeldBy(p, caller, sb) then p.held - {sb} else p.held,
       closed := if close then p.closed + [sb] else p.closed)
  }

  // A release by the present holder, or of a sandbox that is not in use.
  predicate Rightful(p: Pool, e: Event) {
    e.ReleaseBy? ==> HeldBy(p, e.caller, e.sb) || e.sb !in p.core.inUse
  }

  function Run(c: Config, p: Pool, es: seq<Event>): Option<Pool> {
    if es == [] then Some(p)
    else
      match Run(c, p, es[..|es| - 1])
      case None => None
      case Some(q) => Apply(c, q, es[|es| - 1])
  }
}
