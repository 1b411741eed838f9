// The SandboxPool class (_pool.py): its fields, the sections of its coroutines
// that run under the lock, and `acquire` run with no other task in between.
module SandboxPools {
  import opened Wrappers
  import opened Collections
  import opened P = PoolModel
  import PS = PoolSafety
  import opened PoolTheorems

  // What the locked section of `acquire` decides.
  datatype Section = Candidate(sandbox: Sandbox) | Grow | Full

  datatype Acquired = Got(sandbox: Sandbox) | FactoryFailed | TimedOut

  // The free list in the order `acquire` tries it.
  function InOrder(c: Config, es: seq<Entry>): seq<Sandbox> {
    if es == [] then []
    else if c.lifo then [es[|es| - 1].sb] + InOrder(c, es[..|es| - 1])
    else [es[0].sb] + InOrder(c, es[1..])
  }

  // How many candidates fail before the first healthy one.
  function Failures(healthy: Sandbox -> bool, order: seq<Sandbox>): (k: nat)
    ensures k <= |order|
    ensures forall j :: 0 <= j < k ==> !healthy(order[j])
    ensures k < |order| ==> healthy(order[k])
  {
    if order == [] || healthy(order[0]) then 0 else 1 + Failures(healthy, order[1..])
  }

  lemma {:induction false} FailuresUnique(healthy: Sandbox -> bool, order: seq<Sandbox>, k: nat)
    requires k <= |order| && (forall j :: 0 <= j < k ==> !healthy(order[j])) && (k < |order| ==> healthy(order[k]))
    ensures Failures(healthy, order) == k
  {
    if k > 0 {
      FailuresUnique(healthy, order[1..], k - 1);
    }
  }

  lemma {:induction false} InOrderLength(c: Config, es: seq<Entry>)
    ensures |InOrder(c, es)| == |es|
  {
    if es == [] {
    } else if c.lifo {
      InOrderLength(c, es[..|es| - 1]);
    } else {
      InOrderLength(c, es[1..]);
    }
  }

  // Reserving pops the head of the order.
  lemma ReserveTakesFirst(c: Config, k: Core)
    requires k.free != []
    ensures InOrder(c, k.free) == [Reserve(c, k).1] + InOrder(c, Reserve(c, k).0.free)
  {
    if c.lifo {
      assert Reserve(c, k).0.free == k.free[..|k.free| - 1];
    } else {
      assert Reserve(c, k).0.free == k.free[1..];
    }
  }

  // One more entry of the free list swept.
  lemma SweepNext(c: Config, es: seq<Entry>, n: nat, now: Time)
    requires n < |es|
    ensures var (keep, drop) := Sweep(c, es[..n], now);
      Sweep(c, es[..n + 1], now) ==
        if Expired(c, es[n], now) then (keep, drop + [es[n].sb]) else (keep + [es[n]], drop)
  {
    assert es[..n + 1][..n] == es[..n];
  }

  class SandboxPool {
    const config: Config
    var free: seq<Entry>
    var inUse: set<Sandbox>
    var pending: int
    // The pool's history: which operations are in flight, what was closed.
    ghost var pool: Pool

    // The fields are those of the history's present state.
    ghost predicate Linked()
      reads this
    {
      pool.core == Core(free, inUse, pending)
    }

    ghost predicate Valid()
      reads this
    {
      Linked() && PS.Inv(config, pool)
    }

    // The method performed this event of the pool.
    twostate predicate Did(e: Event)
      reads this
    {
      Valid() && Apply(config, old(pool), e) == Some(pool)
    }

    constructor (c: Config, now: Time)
      requires ValidConfig(c)
      ensures Valid() && config == c && pool == Init(now)
    {
      config, free, inUse, pending, pool := c, [], {}, 0, Init(now);
      new;
      PS.InitSafe(c, now);
    }

    // The ghost history takes one event.
    ghost method Record(e: Event)
      requires PS.Inv(config, pool) && Apply(config, pool, e).Some? && Rightful(pool, e)
      modifies this`pool
      ensures PS.Inv(config, pool) && Apply(config, old(pool), e) == Some(pool)
    {
      PS.StepSafe(config, pool, e, Apply(config, pool, e).value);
      pool := Apply(config, pool, e).value;
    }

    method PopFree() returns (sb: Option<Sandbox>)
      modifies this`free
      ensures old(free) == [] ==> sb == None && free == []
      ensures old(free) != [] ==>
        var (k, popped) := Reserve(config, Core(old(free), inUse, pending));
        sb == Some(popped) && free == k.free
    {
      if free == [] {
        return None;
      }
      if config.lifo {
        sb := Some(free[|free| - 1].sb);
        free := free[..|free| - 1];
      } else {
        sb := Some(free[0].sb);
        free := free[1..];
      }
    }

    // One pass through the locked section of `acquire`.
    method EnterAcquire(ghost id: OpId) returns (r: Section)
      requires Valid() && id in pool.ops && pool.ops[id].AcqLoop?
      modifies this
      ensures Did(P.EnterAcquire(id))
      ensures r.Candidate? <==> old(free) != []
      ensures r.Grow? <==> old(free) == [] && old(|inUse| + pending) < config.maxSize
      ensures r.Candidate? ==> InOrder(config, old(free)) == [r.sandbox] + InOrder(config, free)
      ensures inUse == old(inUse) + (if r.Candidate? then {r.sandbox} else {})
      ensures pending == old(pending) + (if r.Grow? then 1 else 0)
      ensures !r.Candidate? ==> free == []
      ensures r.Candidate? ==> |free| == old(|free|) - 1 && r.sandbox !in old(inUse)
      ensures pool.held == old(pool).held && pool.closed == old(pool).closed && pool.made == old(pool).made
      ensures pool.ops == old(pool).ops[id := match r
        case Candidate(sb) => if config.probing then AcqProbe(sb) else AcqDone(sb)
        case Grow => AcqQueued
        case Full => AcqWait]
    {
      if free != [] {
        ReserveTakesFirst(config, pool.core);
        FreeIsNotUsed(config, pool, Reserve(config, pool.core).1);
      }
      var candidate := PopFree();
      if candidate.Some? {
        inUse := inUse + {candidate.value};
        r := Candidate(candidate.value);
      } else if |free| + |inUse| + pending < config.maxSize {
        pending := pending + 1;
        r := Grow;
      } else {
        r := Full;
      }
      Record(P.EnterAcquire(id));
    }

    // The factory returned: the reserved slot becomes a sandbox in use.
    method FinishGrowth(sb: Sandbox, ghost id: OpId)
      requires Valid() && id in pool.ops && pool.ops[id] == AcqBooted(sb)
      modifies this
      ensures Did(FinishProvision(id))
    {
      pending := pending - 1;
      inUse := inUse + {sb};
      Record(FinishProvision(id));
    }

    // The factory raised, and the lock is taken again: the slot is given up.
    method AbandonGrowth(ghost id: OpId)
      requires Valid() && id in pool.ops && pool.ops[id].AcqFailed?
      modifies this
      ensures Did(GiveUpSlot(id))
    {
      pending := pending - 1;
      Record(GiveUpSlot(id));
    }

    // The probe failed: forget the candidate and close it.
    method Discard(sb: Sandbox, ghost id: OpId)
      requires Valid() && id in pool.ops && pool.ops[id] == AcqProbe(sb)
      modifies this
      ensures Did(ProbeFails(id))
      ensures free == old(free) && inUse == old(inUse) - {sb} && pending == old(pending)
      ensures pool.ops == old(pool).ops[id := AcqClosing] && pool.closed == old(pool).closed + [sb]
      ensures pool.held == old(pool).held && pool.made == old(pool).made
    {
      inUse := inUse - {sb};
      Record(ProbeFails(id));
    }

    // Anyone's release of any sandbox; returns whether it has to be closed.  The
    // pool stays sound exactly when the release is rightful.
    method Release(ghost caller: Caller, sb: Sandbox, broken: bool, now: Time) returns (close: bool)
      requires Valid() && now == pool.now
      modifies this
      ensures Linked() && Apply(config, old(pool), ReleaseBy(caller, sb, broken)) == Some(pool)
      ensures Valid() <==> Rightful(old(pool), ReleaseBy(caller, sb, broken))
      ensures close <==> broken && sb in old(inUse)
    {
      ghost var e := ReleaseBy(caller, sb, broken);
      ReleaseSafeIff(config, pool, caller, sb, broken);
      close := false;
      if sb in inUse {
        assert {sb} <= inUse;
        SubsetCardinality({sb}, inUse);
        inUse := inUse - {sb};
        if broken || |free| >= config.maxSize {
          close := true;
        } else {
          free := free + [Entry(sb, now)];
        }
      }
      pool := ReleaseStep(config, pool, caller, sb, broken);
    }

    // One sweep tick; returns the sandboxes to close, oldest first.
    method SweepOnce(now: Time, ghost id: OpId) returns (evicted: seq<Sandbox>)
      requires Valid() && now == pool.now && id !in pool.ops
      modifies this
      ensures Did(StartSweep(id))
      ensures evicted == Sweep(config, old(free), now).1
    {
      var survivors: seq<Entry> := [];
      evicted := [];
      ghost var all, n := free, 0;
      while free != []
        invariant n <= |all| && free == all[n..]
        invariant Sweep(config, all[..n], now) == (survivors, evicted)
        invariant inUse == old(inUse) && pending == old(pending) && pool == old(pool)
        decreases |free|
      {
        var e := free[0];
        free := free[1..];
        SweepNext(config, all, n, now);
        n := n + 1;
        if now - e.at > config.idleTtl {
          evicted := evicted + [e.sb];
        } else {
          survivors := survivors + [e];
        }
      }
      assert all[..n] == all;
      free := survivors;
      Record(StartSweep(id));
    }

    // The head of a prewarm tick: how many sandboxes to provision.
    method StartPrewarm(ghost id: OpId) returns (deficit: nat)
      requires Valid() && id !in pool.ops
      modifies this
      ensures Did(P.StartPrewarm(id))
      ensures deficit > 0 ==> pool.ops == old(pool.ops)[id := WarmLoop(deficit)]
      ensures deficit == 0 ==> pool == old(pool)
      ensures deficit > 0 ==> |free| + deficit <= config.minWarm
      ensures deficit > 0 ==> |free| + |inUse| + pending + deficit <= config.maxSize
    {
      deficit := 0;
      if config.minWarm != 0 && config.minWarm - |free| > 0 {
        var room := config.maxSize - (|free| + |inUse| + pending);
        var wanted := if config.minWarm - |free| < room then config.minWarm - |free| else room;
        if wanted > 0 {
          deficit := wanted;
        }
      }
      Record(P.StartPrewarm(id));
    }

    // Reserve a slot for one prewarm provision, unless the pool has filled up.
    method ReserveWarm(ghost id: OpId) returns (reserved: bool)
      requires Valid() && id in pool.ops && pool.ops[id].WarmLoop? && pool.ops[id].left > 0
      modifies this
      ensures Did(P.ReserveWarm(id))
      ensures reserved <==> id in pool.ops
    {
      reserved := |free| + |inUse| + pending < config.maxSize;
      if reserved {
        pending := pending + 1;
      }
      Record(P.ReserveWarm(id));
    }

    // A prewarm provision is done; it is never surplus.
    method FinishWarm(sb: Sandbox, now: Time, ghost id: OpId) returns (surplus: bool)
      requires Valid() && now == pool.now && id in pool.ops && pool.ops[id].WarmBooted? && pool.ops[id].sb == sb
      modifies this
      ensures Did(FinishProvision(id)) && !surplus
    {
      PS.PendingLeavesRoom(config, pool, id);
      pending := pending - 1;
      surplus := |free| >= config.maxSize;
      if !surplus {
        free := free + [Entry(sb, now)];
      }
      Record(FinishProvision(id));
    }

    method AbandonWarm(ghost id: OpId)
      requires Valid() && id in pool.ops && pool.ops[id].WarmFailed?
      modifies this
      ensures Did(GiveUpSlot(id))
    {
      pending := pending - 1;
      Record(GiveUpSlot(id));
    }

    // ---- `acquire` with no other task in between ----

    ghost method RecordStart(id: OpId)
      requires Valid() && id !in pool.ops
      modifies this`pool
      ensures Valid() && pool == BeginAcquire(old(pool), id)
      ensures |BootingIds(pool.ops)| == |BootingIds(old(pool).ops)|
    {
      PS.GotoCounts(pool.ops, id, AcqLoop);
      Record(StartAcquire(id));
    }

    ghost method RecordTake(id: OpId, caller: Caller)
      requires Valid() && id in pool.ops && pool.ops[id].AcqDone?
      modifies this`pool
      ensures Valid() && pool == HandOut(old(pool), id, old(pool).ops[id].sb, caller)
      ensures old(pool).ops[id].sb !in old(pool).held
    {
      TakenIsNew(config, pool, id);
      Record(Take(id, caller));
    }

    ghost method RecordRaise(id: OpId)
      requires Valid() && id in pool.ops && pool.ops[id].AcqRaised?
      modifies this`pool
      ensures Valid() && pool == Finish(old(pool), id)
    {
      Record(Raise(id));
    }

    // `acquire` returns a sandbox or raises.
    ghost method RecordReturn(id: OpId, caller: Caller, got: Option<Sandbox>)
      requires Valid() && id in pool.ops && pool.ops[id] == if got.Some? then AcqDone(got.value) else AcqRaised
      modifies this`pool
      ensures Valid()
      ensures pool == if got.Some? then HandOut(old(pool), id, got.value, caller) else Finish(old(pool), id)
      ensures got.Some? ==> got.value !in old(pool).held
    {
      if got.Some? {
        RecordTake(id, caller);
      } else {
        RecordRaise(id);
      }
    }

    ghost method RecordTimeout(id: OpId)
      requires Valid() && id in pool.ops && pool.ops[id].AcqWait?
      modifies this`pool
      ensures Valid() && pool == Finish(Goto(old(pool), id, AcqRaised), id)
    {
      Record(TimeoutWaiter(id));
      RecordRaise(id);
    }

    ghost method RecordBoot(id: OpId, sb: Sandbox)
      requires Valid() && id in pool.ops && pool.ops[id].AcqBooting? && sb !in pool.made
      modifies this`pool
      ensures Valid() && pool == Goto(old(pool).(made := old(pool).made + {sb}), id, AcqBooted(sb))
      ensures sb !in inUse
    {
      if sb in inUse {
        UsedIsMade(config, pool, sb);
      }
      Record(FactoryReturns(id, sb));
    }

    ghost method RecordFailure(id: OpId)
      requires Valid() && id in pool.ops && pool.ops[id].AcqBooting?
      modifies this`pool
      ensures Valid() && pool == Goto(old(pool), id, AcqFailed)
    {
      Record(FactoryRaises(id));
    }

    // A provision would enter the factory at once.
    ghost predicate SlotFree()
      reads this
    {
      config.maxProvisions == 0 || |BootingIds(pool.ops)| < config.maxProvisions
    }

    ghost method RecordEnter(id: OpId)
      requires Valid() && id in pool.ops && pool.ops[id].AcqQueued?
      requires config.maxProvisions == 0 || |BootingIds(pool.ops)| < config.maxProvisions
      modifies this`pool
      ensures Valid() && pool == Goto(old(pool), id, AcqBooting)
    {
      Record(EnterFactory(id));
    }

    // The factory call of the growth path; `made` is what the factory makes, if
    // it does not raise.
    method Provision(ghost id: OpId, ghost caller: Caller, made: Option<Sandbox>) returns (r: Acquired)
      requires Valid() && id in pool.ops && pool.ops[id].AcqBooting?
      requires made.Some? ==> made.value !in pool.made
      modifies this
      ensures Valid() && free == old(free) && pending == old(pending) - 1 && pool.closed == old(pool).closed
      ensures r == if made.Some? then Got(made.value) else FactoryFailed
      ensures Gains(Some(r), old(inUse), inUse) && Takes(Some(r), caller, old(pool).held, pool.held)
    {
      match made
      case Some(sb) =>
        RecordBoot(id, sb);
        FinishGrowth(sb, id);
        RecordTake(id, caller);
        r := Got(sb);
      case None =>
        RecordFailure(id);
        AbandonGrowth(id);
        RecordRaise(id);
        r := FactoryFailed;
    }

    ghost method RecordPass(id: OpId)
      requires Valid() && id in pool.ops && pool.ops[id].AcqProbe?
      modifies this`pool
      ensures Valid() && pool == Goto(old(pool), id, AcqDone(old(pool).ops[id].sb))
    {
      Record(ProbePasses(id));
    }

    ghost method RecordClosed(id: OpId)
      requires Valid() && id in pool.ops && pool.ops[id].AcqClosing?
      modifies this`pool
      ensures Valid() && pool == Goto(old(pool), id, AcqLoop)
    {
      Record(CloseReturns(id));
    }

    // Probe the reserved candidate: hand it out, or close it and go round again.
    method Judge(sb: Sandbox, ghost id: OpId, ghost caller: Caller, healthy: Sandbox -> bool)
        returns (r: Option<Acquired>)
      requires Valid() && id in pool.ops
      requires if config.probing then pool.ops[id] == AcqProbe(sb) else pool.ops[id] == AcqDone(sb)
      modifies this
      ensures Valid() && free == old(free) && pending == old(pending) && pool.made == old(pool).made
      ensures r == if config.probing && !healthy(sb) then None else Some(Got(sb))
      ensures inUse == if r.Some? then old(inUse) else old(inUse) - {sb}
      ensures Takes(r, caller, old(pool).held, pool.held)
      ensures pool.closed == old(pool).closed + (if r.Some? then [] else [sb])
      ensures r.None? ==> pool.ops == old(pool).ops[id := AcqLoop]
    {
      if config.probing && !healthy(sb) {
        Discard(sb, id);
        RecordClosed(id);
        return None;
      }
      if config.probing {
        RecordPass(id);
      }
      RecordTake(id, caller);
      return Some(Got(sb));
    }

    // The free list was empty: provision, or wait until the timeout.
    method GrowOrWait(ghost id: OpId, ghost caller: Caller, room: bool, made: Option<Sandbox>) returns (r: Acquired)
      requires Valid() && id in pool.ops && (if room then pool.ops[id].AcqQueued? else pool.ops[id].AcqWait?)
      requires made.Some? ==> made.value !in pool.made
      requires room && config.maxProvisions > 0 ==> |BootingIds(pool.ops)| < config.maxProvisions
      modifies this
      ensures Valid() && free == old(free) && pool.closed == old(pool).closed
      ensures pending == if room then old(pending) - 1 else old(pending)
      ensures r == if !room then TimedOut else if made.Some? then Got(made.value) else FactoryFailed
      ensures Gains(Some(r), old(inUse), inUse) && Takes(Some(r), caller, old(pool).held, pool.held)
    {
      if room {
        RecordEnter(id);
        r := Provision(id, caller, made);
      } else {
        RecordTimeout(id);
        r := TimedOut;
      }
    }

    // One round of `acquire`: None after a rejected candidate.
    method Round(ghost id: OpId, ghost caller: Caller, healthy: Sandbox -> bool, made: Option<Sandbox>)
        returns (r: Option<Acquired>)
      requires Valid() && id in pool.ops && pool.ops[id].AcqLoop?
      requires made.Some? ==> made.value !in pool.made
      requires free == [] && |inUse| + pending < config.maxSize ==> SlotFree()
      modifies this
      ensures Valid() && pending == old(pending)
      ensures old(free) != [] ==>
        && InOrder(config, old(free)) == [InOrder(config, old(free))[0]] + InOrder(config, free)
        && |free| == old(|free|) - 1
        && (var sb := InOrder(config, old(free))[0];
            r == if config.probing && !healthy(sb) then None else Some(Got(sb)))
      ensures old(free) == [] ==>
        && free == []
        && r == Some(if old(|inUse| + pending) >= config.maxSize then TimedOut
                     else if made.Some? then Got(made.value) else FactoryFailed)
      ensures pool.closed == old(pool).closed + (if r.None? then [InOrder(config, old(free))[0]] else [])
      ensures Gains(r, old(inUse), inUse) && Takes(r, caller, old(pool).held, pool.held)
      ensures r.None? ==> pool.ops == old(pool).ops && pool.made == old(pool).made
    {
      ghost var ops := pool.ops;
      var section := EnterAcquire(id);
      if section.Candidate? {
        BackInLoop(ops, id, pool.ops[id]);
        r := Judge(section.sandbox, id, caller, healthy);
      } else {
        BootingKept(ops, id, pool.ops[id]);
        var outcome := GrowOrWait(id, caller, section.Grow?, made);
        r := Some(outcome);
      }
    }

    // The round that tries candidate j of `order`.
    method Attempt(ghost id: OpId, ghost caller: Caller, healthy: Sandbox -> bool, made: Option<Sandbox>,
                   ghost order: seq<Sandbox>, ghost j: nat, ghost full: bool) returns (r: Option<Acquired>)
      requires Valid() && id in pool.ops && pool.ops[id].AcqLoop?
      requires made.Some? ==> made.value !in pool.made
      requires Failing(config, healthy, order, |order|) && !full ==> SlotFree()
      requires Failing(config, healthy, order, j) && InOrder(config, free) == order[j..]
      requires full <==> order == [] && |inUse| + pending >= config.maxSize
      requires order != [] ==> |inUse| + pending < config.maxSize
      modifies this
      ensures Valid() && pending == old(pending)
      ensures Gains(r, old(inUse), inUse) && Takes(r, caller, old(pool).held, pool.held)
      ensures r.None? ==>
        && |free| < old(|free|) && pool.ops == old(pool).ops && pool.made == old(pool).made
        && Failing(config, healthy, order, j + 1) && InOrder(config, free) == order[j + 1..]
        && pool.closed == old(pool).closed + [order[j]]
      ensures r.Some? ==>
        && Chosen(config, healthy, made, full, order, InOrder(config, free), r.value)
        && Rejects(config, healthy, order) == order[..j] && pool.closed == old(pool).closed
    {
      InOrderLength(config, free);
      r := Round(id, caller, healthy, made);
      if r.Some? {
        ChosenAt(config, healthy, made, full, order, j, InOrder(config, free), r.value);
      }
    }

    // The `acquire` coroutine with no other task in between.
    method Acquire(ghost id: OpId, ghost caller: Caller, healthy: Sandbox -> bool, made: Option<Sandbox>)
        returns (r: Acquired)
      requires Valid() && id !in pool.ops
      requires made.Some? ==> made.value !in pool.made
      requires Grows(config, healthy, InOrder(config, free), |inUse| + pending) ==> SlotFree()
      modifies this
      ensures Valid() && pending == old(pending)
      ensures Chosen(config, healthy, made, old(free == [] && |inUse| + pending >= config.maxSize),
                     InOrder(config, old(free)), InOrder(config, free), r)
      ensures pool.closed == old(pool).closed + Rejects(config, healthy, InOrder(config, old(free)))
      ensures Gains(Some(r), old(inUse), inUse) && Takes(Some(r), caller, old(pool).held, pool.held)
    {
      ghost var order, j := InOrder(config, free), 0;
      ghost var full := free == [] && |inUse| + pending >= config.maxSize;
      InOrderLength(config, free);
      RecordStart(id);
      ghost var start := pool;
      while true
        invariant Valid() && pending == old(pending) && inUse == old(inUse)
        invariant pool.ops == start.ops && pool.made == start.made && pool.held == start.held
        invariant Failing(config, healthy, order, j) && InOrder(config, free) == order[j..]
        invariant pool.closed == start.closed + order[..j]
        decreases |free|
      {
        var outcome := Attempt(id, caller, healthy, made, order, j, full);
        if outcome.Some? {
          return outcome.value;
        }
        j := j + 1;
      }
    }
  }

  // So does what the caller holds.
  ghost predicate Takes(r: Option<Acquired>, caller: Caller, before: map<Sandbox, Caller>,
                        after: map<Sandbox, Caller>) {
    if r.Some? && r.value.Got? then
      r.value.sandbox !in before && after == before[r.value.sandbox := caller]
    else after == before
  }

  // The first j candidates fail their probe.
  ghost predicate Failing(c: Config, healthy: Sandbox -> bool, order: seq<Sandbox>, j: nat) {
    j <= |order| && (!c.probing ==> j == 0) && forall i :: 0 <= i < j ==> !healthy(order[i])
  }

  // No candidate is healthy, and there is room once they are gone.
  ghost predicate Grows(c: Config, healthy: Sandbox -> bool, order: seq<Sandbox>, rest: int) {
    Failing(c, healthy, order, |order|) && (order == [] ==> rest < c.maxSize)
  }

  // The candidates `acquire` rejects: those before the first healthy one.
  function Rejects(c: Config, healthy: Sandbox -> bool, order: seq<Sandbox>): seq<Sandbox> {
    if c.probing then order[..Failures(healthy, order)] else []
  }

  // How `acquire` ends: with the first healthy candidate; with a fresh sandbox
  // if none is healthy; and it waits only if there was no candidate and no room.
  ghost predicate Chosen(c: Config, healthy: Sandbox -> bool, made: Option<Sandbox>, full: bool,
                         order: seq<Sandbox>, rest: seq<Sandbox>, r: Acquired) {
    var k := |Rejects(c, healthy, order)|;
    if k < |order| then r == Got(order[k]) && rest == order[k + 1..]
    else
      && rest == []
      && r == if full then TimedOut else if made.Some? then Got(made.value) else FactoryFailed
  }

  lemma ChosenAt(c: Config, healthy: Sandbox -> bool, made: Option<Sandbox>, full: bool,
                 order: seq<Sandbox>, j: nat, rest: seq<Sandbox>, r: Acquired)
    requires Failing(c, healthy, order, j)
    requires j < |order| ==> r == Got(order[j]) && rest == order[j + 1..] && (c.probing ==> healthy(order[j]))
    requires j == |order| ==>
      && rest == []
      && r == if full then TimedOut else if made.Some? then Got(made.value) else FactoryFailed
    ensures Chosen(c, healthy, made, full, order, rest, r)
    ensures Rejects(c, healthy, order) == order[..j]
  {
    if c.probing {
      FailuresUnique(healthy, order, j);
    }
  }

  // The set gains the sandbox acquired, if there is one.
  ghost predicate Gains(r: Option<Acquired>, before: set<Sandbox>, after: set<Sandbox>) {
    if r.Some? && r.value.Got? then r.value.sandbox !in before && after == before + {r.value.sandbox}
    else after == before
  }

  lemma BackInLoop(ops: map<OpId, Op>, id: OpId, op: Op)
    requires id in ops && ops[id].AcqLoop?
    ensures ops[id := op][id := AcqLoop] == ops
  {
  }

  lemma BootingKept(ops: map<OpId, Op>, id: OpId, op: Op)
    requires id in ops && !Booting(ops[id]) && !Booting(op)
    ensures |BootingIds(ops[id := op])| == |BootingIds(ops)|
  {
    PS.GotoCounts(ops, id, op);
  }

  lemma FreeIsNotUsed(c: Config, p: Pool, sb: Sandbox)
    requires PS.Inv(c, p) && sb in Sandboxes(p.core.free)
    ensures sb !in p.core.inUse
  {
    assert PS.At(p, sb, PS.Free) && !PS.At(p, sb, PS.Held);
    forall id
      ensures !PS.Reserved(p, sb, id)
    {
      assert !PS.At(p, sb, PS.Hand(id));
    }
  }

  lemma UsedIsMade(c: Config, p: Pool, sb: Sandbox)
    requires PS.Inv(c, p) && sb in p.core.inUse
    ensures sb in p.made
  {
    if sb in p.held {
      assert PS.At(p, sb, PS.Held);
    } else {
      var id :| PS.Reserved(p, sb, id);
      assert PS.At(p, sb, PS.Hand(id));
    }
  }

  lemma TakenIsNew(c: Config, p: Pool, id: OpId)
    requires PS.Inv(c, p) && id in p.ops && p.ops[id].AcqDone?
    ensures p.ops[id].sb !in p.held
  {
    assert PS.At(p, p.ops[id].sb, PS.Hand(id));
    assert !PS.At(p, p.ops[id].sb, PS.Held);
  }
}
