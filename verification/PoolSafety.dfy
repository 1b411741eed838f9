// Invariants of the sandbox pool over every interleaving of an open pool.
module PoolSafety {
  import opened Wrappers
  import opened Collections
  import opened PoolModel

  // ---- conservation: every sandbox is in exactly one place ----

  datatype Place = Free | Held | Closed | Hand(id: OpId)

  ghost predicate At(p: Pool, sb: Sandbox, pl: Place) {
    match pl
    case Free => sb in Sandboxes(p.core.free)
    case Held => sb in p.held
    case Closed => sb in p.closed
    case Hand(id) => id in p.ops && sb in InHand(p.ops[id])
  }

  ghost predicate OnePlace(p: Pool) {
    forall sb, pl, pl' :: At(p, sb, pl) && At(p, sb, pl') ==> pl == pl'
  }

  ghost predicate NoneLost(p: Pool) {
    forall sb :: sb in p.made <==> exists pl :: At(p, sb, pl)
  }

  // No place lists a sandbox twice; in particular none is closed twice.
  ghost predicate Once(p: Pool) {
    && NoDup(Sandboxes(p.core.free))
    && NoDup(p.closed)
    && (forall id :: id in p.ops && p.ops[id].SweepClosing? ==> NoDup(p.ops[id].victims))
  }

  ghost predicate Conserved(p: Pool) {
    OnePlace(p) && NoneLost(p) && Once(p)
  }

  ghost predicate Reserved(p: Pool, sb: Sandbox, id: OpId) {
    id in p.ops && Reserving(p.ops[id]) && p.ops[id].sb == sb
  }

  // `_in_use` is exactly what callers hold or are about to be given.
  ghost predicate InUseExact(p: Pool) {
    forall sb :: sb in p.core.inUse <==> (sb in p.held || exists id :: Reserved(p, sb, id))
  }

  // ---- capacity ----

  ghost predicate Counts(c: Config, p: Pool) {
    && p.core.pending == |ProvisionIds(p.ops)|
    && Total(p.core) <= c.maxSize
    && (c.maxProvisions > 0 ==> |BootingIds(p.ops)| <= c.maxProvisions)
  }

  // ---- the free list is ordered by return time ----

  ghost predicate Ordered(es: seq<Entry>, now: Time) {
    && (forall i, j :: 0 <= i < j < |es| ==> es[i].at <= es[j].at)
    && (forall i :: 0 <= i < |es| ==> es[i].at <= now)
  }

  ghost predicate Inv(c: Config, p: Pool) {
    Conserved(p) && InUseExact(p) && Counts(c, p) && Ordered(p.core.free, p.now)
  }

  // ---- how the free list moves sandboxes ----

  lemma FreePop(es: seq<Entry>, i: nat)
    requires i < |es| && NoDup(Sandboxes(es))
    ensures NoDup(Sandboxes(es[..i] + es[i + 1..]))
    ensures forall sb :: sb in Sandboxes(es[..i] + es[i + 1..]) <==> sb in Sandboxes(es) && sb != es[i].sb
    ensures es[i].sb in Sandboxes(es)
  {
    var rest := es[..i] + es[i + 1..];
    assert forall j :: 0 <= j < |rest| ==> Sandboxes(rest)[j] == Sandboxes(es)[if j < i then j else j + 1];
    assert Sandboxes(es)[i] == es[i].sb;
    forall sb | sb in Sandboxes(es) && sb != es[i].sb
      ensures sb in Sandboxes(rest)
    {
      var j :| 0 <= j < |es| && Sandboxes(es)[j] == sb;
      assert Sandboxes(rest)[if j < i then j else j - 1] == sb;
    }
  }

  lemma FreePush(es: seq<Entry>, e: Entry)
    requires NoDup(Sandboxes(es)) && e.sb !in Sandboxes(es)
    ensures NoDup(Sandboxes(es + [e]))
    ensures forall sb :: sb in Sandboxes(es + [e]) <==> sb in Sandboxes(es) || sb == e.sb
  {
    assert Sandboxes(es + [e]) == Sandboxes(es) + [e.sb];
  }

  // A sweep tick splits the free list: nothing lost, nothing duplicated.
  lemma {:induction false} SweepSplits(c: Config, es: seq<Entry>, now: Time)
    requires NoDup(Sandboxes(es))
    ensures var (keep, drop) := Sweep(c, es, now);
      && NoDup(Sandboxes(keep)) && NoDup(drop)
      && (forall sb :: sb in Sandboxes(es) <==> sb in Sandboxes(keep) || sb in drop)
      && (forall sb :: sb in Sandboxes(keep) ==> sb !in drop)
      && |keep| <= |es|
  {
    if es != [] {
      var front, e := es[..|es| - 1], es[|es| - 1];
      assert Sandboxes(es) == Sandboxes(front) + [e.sb];
      assert e.sb !in Sandboxes(front);
      SweepSplits(c, front, now);
      FreePush(Sweep(c, front, now).0, e);
    }
  }

  lemma {:induction false} SweepOrdered(c: Config, es: seq<Entry>, now: Time)
    requires Ordered(es, now)
    ensures Ordered(Sweep(c, es, now).0, now)
    ensures forall e :: e in Sweep(c, es, now).0 ==> e in es
  {
    if es != [] {
      var front := es[..|es| - 1];
      SweepOrdered(c, front, now);
      var keep := Sweep(c, front, now).0;
      forall k | 0 <= k < |keep|
        ensures keep[k].at <= es[|es| - 1].at
      {
        assert keep[k] in front;
      }
    }
  }

  // ---- moves between places ----

  lemma Moved(p: Pool, q: Pool, sb: Sandbox, from: Place, to: Place)
    requires OnePlace(p) && NoneLost(p) && At(p, sb, from) && q.made == p.made
    requires forall s, pl :: s != sb ==> (At(q, s, pl) <==> At(p, s, pl))
    requires At(q, sb, to)
    requires forall pl :: At(q, sb, pl) ==> pl == to || (At(p, sb, pl) && pl != from)
    ensures OnePlace(q) && NoneLost(q)
  {
  }

  lemma Unmoved(p: Pool, q: Pool)
    requires OnePlace(p) && NoneLost(p) && q.made == p.made
    requires forall s, pl :: At(q, s, pl) <==> At(p, s, pl)
    ensures OnePlace(q) && NoneLost(q)
  {
  }

  lemma Born(p: Pool, q: Pool, sb: Sandbox, to: Place)
    requires OnePlace(p) && NoneLost(p) && sb !in p.made && q.made == p.made + {sb}
    requires forall s, pl :: At(q, s, pl) <==> (s == sb && pl == to) || At(p, s, pl)
    ensures OnePlace(q) && NoneLost(q)
  {
    assert At(q, sb, to);
  }

  ghost predicate Steps(c: Config, p: Pool, e: Event, q: Pool) {
    Inv(c, p) && Apply(c, p, e) == Some(q) && Rightful(p, e)
  }

  lemma PopConserves(c: Config, p: Pool, id: OpId, q: Pool)
    requires Steps(c, p, EnterAcquire(id), q) && p.core.free != []
    ensures Conserved(q)
  {
    var i := PopIndex(c, p.core);
    FreePop(p.core.free, i);
    assert Sandboxes(q.core.free) == Sandboxes(p.core.free[..i] + p.core.free[i + 1..]);
    var sb := p.core.free[i].sb;
    assert q.held == p.held && q.closed == p.closed && q.made == p.made && q.ops == p.ops[id := q.ops[id]];
    assert InHand(q.ops[id]) == {sb} && InHand(p.ops[id]) == {};
    Moved(p, q, sb, Free, Hand(id));
  }

  lemma AcquireConserves(c: Config, p: Pool, id: OpId, q: Pool)
    requires Steps(c, p, EnterAcquire(id), q)
    ensures Conserved(q)
  {
    if p.core.free != [] {
      PopConserves(c, p, id, q);
    } else {
      Unmoved(p, q);
    }
  }

  lemma FactoryConserves(c: Config, p: Pool, id: OpId, sb: Sandbox, q: Pool)
    requires Steps(c, p, FactoryReturns(id, sb), q)
    ensures Conserved(q)
  {
    Born(p, q, sb, Hand(id));
  }

  lemma WarmConserves(c: Config, p: Pool, id: OpId, q: Pool)
    requires Steps(c, p, FinishProvision(id), q) && p.ops[id].WarmBooted?
    ensures Conserved(q)
  {
    var sb := p.ops[id].sb;
    assert At(p, sb, Hand(id)) && !At(p, sb, Free) && !At(p, sb, Closed);
    FreePush(p.core.free, Entry(sb, p.now));
    if |p.core.free| >= c.maxSize {
      Moved(p, q, sb, Hand(id), Closed);
    } else {
      Moved(p, q, sb, Hand(id), Free);
    }
  }

  lemma FinishConserves(c: Config, p: Pool, id: OpId, q: Pool)
    requires Steps(c, p, FinishProvision(id), q)
    ensures Conserved(q)
  {
    if p.ops[id].WarmBooted? {
      WarmConserves(c, p, id, q);
    } else {
      Unmoved(p, q);
    }
  }

  lemma ProbeConserves(c: Config, p: Pool, id: OpId, q: Pool)
    requires Steps(c, p, ProbeFails(id), q)
    ensures Conserved(q)
  {
    var sb := p.ops[id].sb;
    assert At(p, sb, Hand(id)) && !At(p, sb, Closed);
    Moved(p, q, sb, Hand(id), Closed);
  }

  lemma TakeConserves(c: Config, p: Pool, id: OpId, caller: Caller, q: Pool)
    requires Steps(c, p, Take(id, caller), q)
    ensures Conserved(q)
  {
    var sb := p.ops[id].sb;
    assert At(p, sb, Hand(id));
    Moved(p, q, sb, Hand(id), Held);
  }

  // Releasing a sandbox that is not in use does nothing.
  lemma StrayRelease(c: Config, p: Pool, caller: Caller, sb: Sandbox, broken: bool, q: Pool)
    requires Steps(c, p, ReleaseBy(caller, sb, broken), q) && sb !in p.core.inUse
    ensures q == p
  {
    assert sb !in p.held;
  }

  lemma ReleaseConserves(c: Config, p: Pool, caller: Caller, sb: Sandbox, broken: bool, q: Pool)
    requires Steps(c, p, ReleaseBy(caller, sb, broken), q) && sb in p.core.inUse
    ensures Conserved(q)
  {
    assert At(p, sb, Held) && !At(p, sb, Free) && !At(p, sb, Closed);
    FreePush(p.core.free, Entry(sb, p.now));
    Moved(p, q, sb, Held, if q.closed == p.closed then Free else Closed);
  }

  lemma SweepConserves(c: Config, p: Pool, id: OpId, q: Pool)
    requires Steps(c, p, StartSweep(id), q)
    ensures Conserved(q)
  {
    SweepSplits(c, p.core.free, p.now);
    var (keep, drop) := Sweep(c, p.core.free, p.now);
    forall s, pl | At(q, s, pl)
      ensures pl == Free ==> At(p, s, Free) && s !in drop
      ensures pl == Hand(id) ==> At(p, s, Free) && s in drop
      ensures pl != Hand(id) ==> At(p, s, pl)
    {
    }
    forall s, pl | At(p, s, pl)
      ensures At(q, s, if s in drop then Hand(id) else pl)
    {
      assert s in drop ==> At(p, s, Free);
    }
  }

  lemma VictimConserves(c: Config, p: Pool, id: OpId, q: Pool)
    requires Steps(c, p, CloseVictim(id), q)
    ensures Conserved(q)
  {
    var vs := p.ops[id].victims;
    if vs == [] {
      Unmoved(p, q);
    } else {
      assert At(p, vs[0], Hand(id)) && !At(p, vs[0], Closed);
      assert vs == [vs[0]] + vs[1..];
      Moved(p, q, vs[0], Hand(id), Closed);
    }
  }

  // Events that move no sandbox: those of a provision or a wait, and the others.
  predicate Waiting(e: Event) {
    e.StartAcquire? || e.WakeWaiter? || e.TimeoutWaiter? || e.EnterFactory? || e.FactoryRaises? || e.GiveUpSlot?
  }

  predicate Still(e: Event) {
    e.Tick? || e.ProbePasses? || e.CloseReturns? || e.Raise? || e.StartPrewarm? || e.ReserveWarm?
  }

  lemma WaitingConserves(c: Config, p: Pool, e: Event, q: Pool)
    requires Steps(c, p, e, q) && Waiting(e)
    ensures Conserved(q)
  {
    Unmoved(p, q);
  }

  lemma StillConserves(c: Config, p: Pool, e: Event, q: Pool)
    requires Steps(c, p, e, q) && Still(e)
    ensures Conserved(q)
  {
    Unmoved(p, q);
  }

  lemma ConservedStep(c: Config, p: Pool, e: Event, q: Pool)
    requires Steps(c, p, e, q)
    ensures Conserved(q)
  {
    match e
    case EnterAcquire(id) => AcquireConserves(c, p, id, q);
    case FactoryReturns(id, sb) => FactoryConserves(c, p, id, sb, q);
    case FinishProvision(id) => FinishConserves(c, p, id, q);
    case ProbeFails(id) => ProbeConserves(c, p, id, q);
    case Take(id, caller) => TakeConserves(c, p, id, caller, q);
    case ReleaseBy(caller, sb, broken) =>
      if sb in p.core.inUse {
        ReleaseConserves(c, p, caller, sb, broken, q);
      } else {
        StrayRelease(c, p, caller, sb, broken, q);
      }
    case StartSweep(id) => SweepConserves(c, p, id, q);
    case CloseVictim(id) => VictimConserves(c, p, id, q);
    case _ =>
      if Waiting(e) {
        WaitingConserves(c, p, e, q);
      } else {
        StillConserves(c, p, e, q);
      }
  }

  // ---- `_in_use` ----

  lemma InUseKept(p: Pool, q: Pool)
    requires InUseExact(p) && q.core.inUse == p.core.inUse && q.held == p.held
    requires forall sb, id :: Reserved(q, sb, id) <==> Reserved(p, sb, id)
    ensures InUseExact(q)
  {
  }

  lemma ReservingIsInHand(p: Pool)
    ensures forall sb, id :: Reserved(p, sb, id) ==> At(p, sb, Hand(id))
  {
  }

  lemma AcquireInUse(c: Config, p: Pool, id: OpId, q: Pool)
    requires Steps(c, p, EnterAcquire(id), q)
    ensures InUseExact(q)
  {
    forall sb, i | i != id
      ensures Reserved(q, sb, i) <==> Reserved(p, sb, i)
    {
    }
    if p.core.free != [] {
      assert Reserved(q, q.ops[id].sb, id);
    } else {
      InUseKept(p, q);
    }
  }

  lemma FinishInUse(c: Config, p: Pool, id: OpId, q: Pool)
    requires Steps(c, p, FinishProvision(id), q)
    ensures InUseExact(q)
  {
    forall sb, i | i != id
      ensures Reserved(q, sb, i) <==> Reserved(p, sb, i)
    {
    }
    if p.ops[id].AcqBooted? {
      assert Reserved(q, q.ops[id].sb, id);
    } else {
      InUseKept(p, q);
    }
  }

  lemma ProbeInUse(c: Config, p: Pool, id: OpId, q: Pool)
    requires Steps(c, p, ProbeFails(id), q)
    ensures InUseExact(q)
  {
    var sb := p.ops[id].sb;
    assert At(p, sb, Hand(id));
    ReservingIsInHand(p);
    forall s, i
      ensures Reserved(q, s, i) <==> Reserved(p, s, i) && i != id
      ensures Reserved(p, sb, i) ==> i == id
    {
    }
    assert !At(p, sb, Held);
  }

  lemma TakeInUse(c: Config, p: Pool, id: OpId, caller: Caller, q: Pool)
    requires Steps(c, p, Take(id, caller), q)
    ensures InUseExact(q)
  {
    var sb := p.ops[id].sb;
    assert Reserved(p, sb, id);
    forall s, i
      ensures Reserved(q, s, i) <==> Reserved(p, s, i) && i != id
    {
    }
  }

  lemma ReleaseInUse(c: Config, p: Pool, caller: Caller, sb: Sandbox, broken: bool, q: Pool)
    requires Steps(c, p, ReleaseBy(caller, sb, broken), q) && sb in p.core.inUse
    ensures InUseExact(q)
  {
    assert At(p, sb, Held);
    ReservingIsInHand(p);
    forall s, i
      ensures Reserved(q, s, i) <==> Reserved(p, s, i)
      ensures !Reserved(p, sb, i)
    {
    }
  }

  lemma AnyReleaseInUse(c: Config, p: Pool, caller: Caller, sb: Sandbox, broken: bool, q: Pool)
    requires Steps(c, p, ReleaseBy(caller, sb, broken), q)
    ensures InUseExact(q)
  {
    if sb in p.core.inUse {
      ReleaseInUse(c, p, caller, sb, broken, q);
    } else {
      StrayRelease(c, p, caller, sb, broken, q);
    }
  }

  predicate ChangesInUse(e: Event) {
    e.EnterAcquire? || e.FinishProvision? || e.ProbeFails? || e.Take? || e.ReleaseBy?
  }

  lemma OtherInUse(c: Config, p: Pool, e: Event, q: Pool)
    requires Steps(c, p, e, q) && !ChangesInUse(e)
    ensures InUseExact(q)
  {
    InUseKept(p, q);
  }

  lemma InUseStep(c: Config, p: Pool, e: Event, q: Pool)
    requires Steps(c, p, e, q)
    ensures InUseExact(q)
  {
    match e
    case EnterAcquire(id) => AcquireInUse(c, p, id, q);
    case FinishProvision(id) => FinishInUse(c, p, id, q);
    case ProbeFails(id) => ProbeInUse(c, p, id, q);
    case Take(id, caller) => TakeInUse(c, p, id, caller, q);
    case ReleaseBy(caller, sb, broken) => AnyReleaseInUse(c, p, caller, sb, broken, q);
    case _ => OtherInUse(c, p, e, q);
  }

  // ---- capacity ----

  function One(b: bool): int {
    if b then 1 else 0
  }

  lemma GotoIds(ops: map<OpId, Op>, id: OpId, op: Op)
    ensures ProvisionIds(ops[id := op]) == (ProvisionIds(ops) - {id}) + (if Provisioning(op) then {id} else {})
    ensures BootingIds(ops[id := op]) == (BootingIds(ops) - {id}) + (if Booting(op) then {id} else {})
  {
  }

  lemma GotoCounts(ops: map<OpId, Op>, id: OpId, op: Op)
    ensures |ProvisionIds(ops[id := op])|
         == |ProvisionIds(ops)| - One(id in ops && Provisioning(ops[id])) + One(Provisioning(op))
    ensures |BootingIds(ops[id := op])| == |BootingIds(ops)| - One(id in ops && Booting(ops[id])) + One(Booting(op))
  {
    GotoIds(ops, id, op);
  }

  lemma LeaveIds(ops: map<OpId, Op>, id: OpId)
    ensures ProvisionIds(ops - {id}) == ProvisionIds(ops) - {id}
    ensures BootingIds(ops - {id}) == BootingIds(ops) - {id}
  {
  }

  lemma LeaveCounts(ops: map<OpId, Op>, id: OpId)
    ensures |ProvisionIds(ops - {id})| == |ProvisionIds(ops)| - One(id in ops && Provisioning(ops[id]))
    ensures |BootingIds(ops - {id})| == |BootingIds(ops)| - One(id in ops && Booting(ops[id]))
  {
    LeaveIds(ops, id);
  }

  // A provision in flight leaves room in the pool.
  lemma PendingLeavesRoom(c: Config, p: Pool, id: OpId)
    requires Counts(c, p) && id in p.ops && Provisioning(p.ops[id])
    ensures p.core.pending >= 1 && |p.core.free| < c.maxSize
  {
    assert {id} <= ProvisionIds(p.ops);
    SubsetCardinality({id}, ProvisionIds(p.ops));
  }

  lemma AcquireCounts(c: Config, p: Pool, id: OpId, q: Pool)
    requires Counts(c, p) && Apply(c, p, EnterAcquire(id)) == Some(q)
    ensures Counts(c, q)
  {
    GotoCounts(p.ops, id, q.ops[id]);
  }

  lemma FactoryCounts(c: Config, p: Pool, e: Event, q: Pool)
    requires Counts(c, p) && Apply(c, p, e) == Some(q)
    requires e.EnterFactory? || e.FactoryReturns? || e.FactoryRaises? || e.GiveUpSlot? || e.ReserveWarm?
    ensures Counts(c, q)
  {
    LeaveCounts(p.ops, e.id);
    if e.id in q.ops {
      GotoCounts(p.ops, e.id, q.ops[e.id]);
    }
  }

  lemma FinishCounts(c: Config, p: Pool, id: OpId, q: Pool)
    requires Counts(c, p) && Apply(c, p, FinishProvision(id)) == Some(q)
    ensures Counts(c, q)
  {
    GotoCounts(p.ops, id, q.ops[id]);
    PendingLeavesRoom(c, p, id);
  }

  lemma SweepCounts(c: Config, p: Pool, id: OpId, q: Pool)
    requires Counts(c, p) && Apply(c, p, StartSweep(id)) == Some(q) && NoDup(Sandboxes(p.core.free))
    ensures Counts(c, q)
  {
    SweepSplits(c, p.core.free, p.now);
    GotoCounts(p.ops, id, q.ops[id]);
  }

  lemma WaitCounts(c: Config, p: Pool, e: Event, q: Pool)
    requires Counts(c, p) && Apply(c, p, e) == Some(q)
    requires e.StartAcquire? || e.WakeWaiter? || e.TimeoutWaiter? || e.ProbePasses? || e.ProbeFails? || e.CloseReturns?
    ensures Counts(c, q)
  {
    GotoCounts(p.ops, e.id, q.ops[e.id]);
  }

  lemma LastCounts(c: Config, p: Pool, e: Event, q: Pool)
    requires Counts(c, p) && Apply(c, p, e) == Some(q)
    requires e.Take? || e.Raise? || e.CloseVictim? || e.StartPrewarm?
    ensures Counts(c, q)
  {
    LeaveCounts(p.ops, e.id);
    if e.id in q.ops {
      GotoCounts(p.ops, e.id, q.ops[e.id]);
    }
  }

  lemma CountsStep(c: Config, p: Pool, e: Event, q: Pool)
    requires Steps(c, p, e, q)
    ensures Counts(c, q)
  {
    match e
    case Tick(_) =>
    case ReleaseBy(_, _, _) =>
    case EnterAcquire(id) => AcquireCounts(c, p, id, q);
    case FinishProvision(id) => FinishCounts(c, p, id, q);
    case StartSweep(id) => SweepCounts(c, p, id, q);
    case EnterFactory(_) => FactoryCounts(c, p, e, q);
    case FactoryReturns(_, _) => FactoryCounts(c, p, e, q);
    case FactoryRaises(_) => FactoryCounts(c, p, e, q);
    case GiveUpSlot(_) => FactoryCounts(c, p, e, q);
    case ReserveWarm(_) => FactoryCounts(c, p, e, q);
    case Take(_, _) => LastCounts(c, p, e, q);
    case Raise(_) => LastCounts(c, p, e, q);
    case CloseVictim(_) => LastCounts(c, p, e, q);
    case StartPrewarm(_) => LastCounts(c, p, e, q);
    case _ => WaitCounts(c, p, e, q);
  }

  // ---- order ----

  lemma OrderedPush(es: seq<Entry>, e: Entry, now: Time)
    requires Ordered(es, now) && e.at == now
    ensures Ordered(es + [e], now)
  {
  }

  lemma OrderedPop(es: seq<Entry>, i: nat, now: Time)
    requires Ordered(es, now) && i < |es|
    ensures Ordered(es[..i] + es[i + 1..], now)
  {
  }

  // What an event does to the free list.
  lemma OrderedStep(c: Config, p: Pool, e: Event, q: Pool)
    requires Ordered(p.core.free, p.now) && Apply(c, p, e) == Some(q)
    ensures Ordered(q.core.free, q.now)
  {
    match e
    case StartSweep(_) => SweepOrdered(c, p.core.free, p.now);
    case EnterAcquire(_) =>
      if p.core.free != [] {
        OrderedPop(p.core.free, PopIndex(c, p.core), p.now);
      }
    case ReleaseBy(_, sb, _) => OrderedPush(p.core.free, Entry(sb, p.now), p.now);
    case FinishProvision(id) => OrderedPush(p.core.free, Entry(p.ops[id].sb, p.now), p.now);
    case _ =>
  }

  // ---- every run ----

  lemma InitSafe(c: Config, now: Time)
    requires ValidConfig(c)
    ensures Inv(c, Init(now))
  {
    assert ProvisionIds(map[]) == {};
    assert BootingIds(map[]) == {};
  }

  lemma StepSafe(c: Config, p: Pool, e: Event, q: Pool)
    requires Inv(c, p) && Apply(c, p, e) == Some(q) && Rightful(p, e)
    ensures Inv(c, q)
  {
    ConservedStep(c, p, e, q);
    InUseStep(c, p, e, q);
    CountsStep(c, p, e, q);
    OrderedStep(c, p, e, q);
  }

  // Every release of the run is rightful.
  ghost predicate Disciplined(c: Config, p: Pool, es: seq<Event>) {
    es == []
    || (Disciplined(c, p, es[..|es| - 1])
        && (Run(c, p, es[..|es| - 1]).Some? ==> Rightful(Run(c, p, es[..|es| - 1]).value, es[|es| - 1])))
  }

  lemma {:induction false} RunSafe(c: Config, p: Pool, es: seq<Event>, q: Pool)
    requires Inv(c, p) && Run(c, p, es) == Some(q) && Disciplined(c, p, es)
    ensures Inv(c, q)
  {
    if es != [] {
      var mid := Run(c, p, es[..|es| - 1]).value;
      RunSafe(c, p, es[..|es| - 1], mid);
      StepSafe(c, mid, es[|es| - 1], q);
    }
  }
}
