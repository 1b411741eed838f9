// What every run of an open sandbox pool guarantees, whatever the interleaving
// of its callers, probes, prewarm ticks and sweep ticks, as long as callers
// release what they hold and not what has since been handed to someone else.
module PoolTheorems {
  import opened Wrappers
  import opened Collections
  import opened PoolModel
  import opened PoolSafety

  ghost predicate Reachable(c: Config, p: Pool) {
    exists now, es :: Run(c, Init(now), es) == Some(p) && Disciplined(c, Init(now), es)
  }

  lemma AlwaysInv(c: Config, p: Pool)
    requires ValidConfig(c) && Reachable(c, p)
    ensures Inv(c, p)
  {
    var now, es :| Run(c, Init(now), es) == Some(p) && Disciplined(c, Init(now), es);
    InitSafe(c, now);
    RunSafe(c, Init(now), es, p);
  }

  // ---- capacity ----

  lemma CapacityHolds(c: Config, p: Pool)
    requires ValidConfig(c) && Reachable(c, p)
    ensures |p.core.free| + |p.core.inUse| + p.core.pending <= c.maxSize
    ensures p.core.pending == |ProvisionIds(p.ops)|
    ensures |BootingIds(p.ops)| <= p.core.pending
    ensures c.maxProvisions > 0 ==> |BootingIds(p.ops)| <= c.maxProvisions
  {
    AlwaysInv(c, p);
    SubsetCardinality(BootingIds(p.ops), ProvisionIds(p.ops));
  }

  // The branches that close a sandbox because the free list is full are never
  // taken: a healthy release, like a finished prewarm, makes one available.
  lemma HealthyReleaseIsKept(c: Config, p: Pool, caller: Caller, sb: Sandbox)
    requires ValidConfig(c) && Reachable(c, p) && HeldBy(p, caller, sb)
    ensures ReleaseStep(c, p, caller, sb, false).core.free == p.core.free + [Entry(sb, p.now)]
    ensures ReleaseStep(c, p, caller, sb, false).closed == p.closed
  {
    AlwaysInv(c, p);
    assert {sb} <= p.core.inUse;
    SubsetCardinality({sb}, p.core.inUse);
  }

  lemma PrewarmedIsKept(c: Config, p: Pool, id: OpId)
    requires ValidConfig(c) && Reachable(c, p) && id in p.ops && p.ops[id].WarmBooted?
    ensures Apply(c, p, FinishProvision(id)).Some?
    ensures var q := Apply(c, p, FinishProvision(id)).value;
      q.core.free == p.core.free + [Entry(p.ops[id].sb, p.now)] && q.closed == p.closed
  {
    AlwaysInv(c, p);
    PendingLeavesRoom(c, p, id);
  }

  // ---- conservation and exclusivity ----

  // Everything the factory made is in exactly one place, and nothing else is
  // anywhere.
  lemma OneOfEach(c: Config, p: Pool, sb: Sandbox)
    requires ValidConfig(c) && Reachable(c, p)
    ensures sb in p.made <==> exists pl :: At(p, sb, pl)
    ensures forall pl, pl' :: At(p, sb, pl) && At(p, sb, pl') ==> pl == pl'
    ensures multiset(p.closed)[sb] <= 1
  {
    AlwaysInv(c, p);
    OccursOnce(p.closed, sb);
  }

  lemma {:induction false} OccursOnce<T>(xs: seq<T>, x: T)
    requires NoDup(xs)
    ensures multiset(xs)[x] <= 1
  {
    if xs != [] {
      var front, last := xs[..|xs| - 1], xs[|xs| - 1];
      assert xs == front + [last];
      OccursOnce(front, x);
      if last == x {
        assert x !in front;
        assert x !in multiset(front);
      }
    }
  }

  // What `acquire` hands out nobody else holds, and it has not been closed.
  lemma HandOutIsExclusive(c: Config, p: Pool, id: OpId)
    requires ValidConfig(c) && Reachable(c, p) && id in p.ops && p.ops[id].AcqDone?
    ensures p.ops[id].sb !in p.held && p.ops[id].sb !in p.closed && p.ops[id].sb !in Sandboxes(p.core.free)
    ensures forall other :: other in p.ops && other != id ==> p.ops[id].sb !in InHand(p.ops[other])
  {
    AlwaysInv(c, p);
    var sb := p.ops[id].sb;
    assert At(p, sb, Hand(id));
    assert !At(p, sb, Held) && !At(p, sb, Closed) && !At(p, sb, Free);
    forall other | other in p.ops && other != id
      ensures sb !in InHand(p.ops[other])
    {
      assert !At(p, sb, Hand(other));
    }
  }

  // A release keeps the pool's invariant exactly when it is rightful; so this
  // is what the pool needs of its callers, and it does not check it.
  lemma ReleaseSafeIff(c: Config, p: Pool, caller: Caller, sb: Sandbox, broken: bool)
    requires Inv(c, p)
    ensures Inv(c, ReleaseStep(c, p, caller, sb, broken)) <==> Rightful(p, ReleaseBy(caller, sb, broken))
  {
    var q := ReleaseStep(c, p, caller, sb, broken);
    if Rightful(p, ReleaseBy(caller, sb, broken)) {
      StepSafe(c, p, ReleaseBy(caller, sb, broken), q);
    } else if sb in p.held {
      assert sb in q.held && sb !in q.core.inUse;
    } else {
      var id :| Reserved(p, sb, id);
      assert Reserved(q, sb, id) && sb !in q.core.inUse;
    }
  }

  // ---- what an undisciplined caller can do ----

  lemma RunOn(c: Config, start: Pool, es: seq<Event>, p: Pool, e: Event) returns (more: seq<Event>, q: Pool)
    requires Run(c, start, es) == Some(p) && Apply(c, p, e).Some?
    ensures Apply(c, p, e) == Some(q) && Run(c, start, more) == Some(q) && more == es + [e]
  {
    more, q := es + [e], Apply(c, p, e).value;
    assert more[..|more| - 1] == es;
  }

  // The pool is about to hand out a sandbox that someone else holds.
  predicate HandsOutTwice(p: Pool, id: OpId) {
    id in p.ops && p.ops[id].AcqDone? && p.ops[id].sb in p.held
  }

  const ONE := Config(1, 0, 0, false, false, 0)

  // Sandbox 7 is all there is, and the caller holds it.
  function OnlyHolder(caller: Caller): Pool {
    Pool(Core([], {7}, 0), map[], map[7 := caller], [], {7}, 0)
  }

  lemma FirstBoots() returns (es: seq<Event>, p: Pool)
    ensures Run(ONE, Init(0), es) == Some(p) && p == Pool(Core([], {}, 1), map[0 := AcqBooting], map[], [], {}, 0)
  {
    es, p := [], Init(0);
    es, p := RunOn(ONE, Init(0), es, p, StartAcquire(0));
    es, p := RunOn(ONE, Init(0), es, p, EnterAcquire(0));
    es, p := RunOn(ONE, Init(0), es, p, EnterFactory(0));
  }

  lemma FirstHolds() returns (es: seq<Event>)
    ensures Run(ONE, Init(0), es) == Some(OnlyHolder(1))
  {
    var p: Pool;
    es, p := FirstBoots();
    es, p := RunOn(ONE, Init(0), es, p, FactoryReturns(0, 7));
    es, p := RunOn(ONE, Init(0), es, p, FinishProvision(0));
    es, p := RunOn(ONE, Init(0), es, p, Take(0, 1));
  }

  // Someone's release puts sandbox 7 on the free list; the next acquire pops it.
  lemma Reacquired(es: seq<Event>, holder: Caller) returns (more: seq<Event>, p: Pool)
    requires Run(ONE, Init(0), es) == Some(OnlyHolder(holder))
    ensures Run(ONE, Init(0), more) == Some(p)
    ensures var held := if holder == 1 then map[] else map[7 := holder];
      p == Pool(Core([], {7}, 0), map[0 := AcqDone(7)], held, [], {7}, 0)
  {
    more, p := RunOn(ONE, Init(0), es, OnlyHolder(holder), ReleaseBy(1, 7, false));
    more, p := RunOn(ONE, Init(0), more, p, StartAcquire(0));
    more, p := RunOn(ONE, Init(0), more, p, EnterAcquire(0));
  }

  // Caller 1 releases sandbox 7 a second time, after it was handed to caller 2;
  // the next acquire gets it too.
  lemma DoubleRelease()
    ensures exists es :: Run(ONE, Init(0), es).Some? && HandsOutTwice(Run(ONE, Init(0), es).value, 0)
  {
    var es := FirstHolds();
    var p := Init(0);
    es, p := Reacquired(es, 1);
    es, p := RunOn(ONE, Init(0), es, p, Take(0, 2));
    assert p == OnlyHolder(2);
    es, p := Reacquired(es, 2);
    assert HandsOutTwice(p, 0);
  }

  lemma ClosedOnlyGrows(c: Config, p: Pool, e: Event)
    requires Apply(c, p, e).Some?
    ensures p.closed <= Apply(c, p, e).value.closed
  {
  }

  // A sandbox once closed is never handed out again, however long the run.
  lemma {:induction false} ClosedForGood(c: Config, p: Pool, es: seq<Event>, sb: Sandbox)
    requires Inv(c, p) && Run(c, p, es).Some? && Disciplined(c, p, es) && sb in p.closed
    ensures var q := Run(c, p, es).value;
      p.closed <= q.closed && sb !in q.held && sb !in Sandboxes(q.core.free)
  {
    if es == [] {
      assert At(p, sb, Closed) && !At(p, sb, Held) && !At(p, sb, Free);
    } else {
      var front := es[..|es| - 1];
      ClosedForGood(c, p, front, sb);
      var mid, q := Run(c, p, front).value, Run(c, p, es).value;
      RunSafe(c, p, es, q);
      ClosedOnlyGrows(c, mid, es[|es| - 1]);
      assert sb in q.closed;
      assert At(q, sb, Closed) && !At(q, sb, Held) && !At(q, sb, Free);
    }
  }

  // ---- order ----

  // fifo pops the sandbox idle longest, lifo the one idle shortest.
  lemma StrategyOrder(c: Config, p: Pool, k: nat)
    requires ValidConfig(c) && Reachable(c, p) && k < |p.core.free|
    ensures Reserve(c, p.core).1 == p.core.free[PopIndex(c, p.core)].sb
    ensures if c.lifo then p.core.free[k].at <= p.core.free[PopIndex(c, p.core)].at
            else p.core.free[PopIndex(c, p.core)].at <= p.core.free[k].at
  {
    AlwaysInv(c, p);
  }

  // Where the unexpired part of an ordered free list begins.
  function Cut(c: Config, es: seq<Entry>, now: Time): (k: nat)
    ensures k <= |es|
  {
    if es == [] then 0
    else
      var k := Cut(c, es[..|es| - 1], now);
      if Expired(c, es[|es| - 1], now) then |es| else k
  }

  lemma {:induction false} SweepAll(c: Config, es: seq<Entry>, now: Time)
    requires forall e :: e in es ==> Expired(c, e, now)
    ensures Sweep(c, es, now) == ([], Sandboxes(es))
  {
    if es == [] {
    } else {
      var front, e := es[..|es| - 1], es[|es| - 1];
      SweepAll(c, front, now);
      assert Sandboxes(es) == Sandboxes(front) + [e.sb];
    }
  }

  // One tick evicts exactly the prefix of the free list idle for too long.
  lemma {:induction false} SweepCuts(c: Config, es: seq<Entry>, now: Time)
    requires Ordered(es, now)
    ensures var k := Cut(c, es, now);
      && Sweep(c, es, now) == (es[k..], Sandboxes(es[..k]))
      && (forall i :: 0 <= i < k ==> Expired(c, es[i], now))
      && (forall i :: k <= i < |es| ==> !Expired(c, es[i], now))
  {
    if es == [] {
      assert Sandboxes(es[..0]) == [];
    } else {
      var e := es[|es| - 1];
      if Expired(c, e, now) {
        SweepAll(c, es, now);
        assert es[..|es|] == es && es[|es|..] == [];
      } else {
        var front := es[..|es| - 1];
        SweepCuts(c, front, now);
        var k := Cut(c, front, now);
        assert es[k..] == front[k..] + [e];
        assert es[..k] == front[..k];
      }
    }
  }
}
