// A tier that is written through and never evicts is not only enough for the
// tiered store to keep what was put (TieredModel); it is needed.
module TieredLoss {
  import opened Wrappers
  import opened Collections
  import opened TieredModel

  const ENTRY := Entry(Meta("actor", "tag", None, "none"), [])

  // The k-th of a list of distinct references.
  function Name(k: nat): Ref {
    seq(k, _ => 'x')
  }

  function Names(k: nat): set<Ref> {
    if k == 0 then {} else Names(k - 1) + {Name(k - 1)}
  }

  lemma {:induction false} InNames(k: nat, r: Ref)
    ensures r in Names(k) <==> |r| < k && r == Name(|r|)
  {
    if k > 0 {
      InNames(k - 1, r);
      assert |Name(k - 1)| == k - 1;
    }
  }

  lemma {:induction false} NamesCardinality(k: nat)
    ensures |Names(k)| == k
  {
    if k > 0 {
      NamesCardinality(k - 1);
      InNames(k - 1, Name(k - 1));
    }
  }

  ghost predicate Fits(tiers: seq<Tier>, k: nat) {
    forall t :: t in tiers ==> t.maxObjects < k && t.ttl < k
  }

  // A bound on every tier's caps.
  function Bound(tiers: seq<Tier>): (n: nat)
    ensures forall t :: t in tiers ==> t.maxObjects < n && t.ttl < n
  {
    if tiers == [] then 1
    else
      var t, n := tiers[|tiers| - 1], Bound(tiers[..|tiers| - 1]);
      assert forall x :: x in tiers ==> x == t || x in tiers[..|tiers| - 1];
      n + t.maxObjects + (if t.ttl > 0 then t.ttl else 0)
  }

  function Puts(k: nat): seq<Event> {
    if k == 0 then [] else Puts(k - 1) + [Put(Name(k - 1), ENTRY, k - 1)]
  }

  // The oldest references that do not fit; all of them once they have expired.
  function Victims(t: Tier, k: nat): set<Ref> {
    if !t.writeThrough then {}
    else if t.policy.LRU? && 0 < t.maxObjects <= k then Names(k - t.maxObjects)
    else if t.policy.TTL? && t.ttl > 0 then Names(k)
    else {}
  }

  // What tier j holds after k puts, before and after its pass.
  function Held(t: Tier, k: nat, swept: bool): set<Ref> {
    (if t.writeThrough then Names(k) else {}) - (if swept then Victims(t, k) else {})
  }

  ghost predicate Stamped(access: map<Ref, Time>, k: nat) {
    forall j: nat :: j < k ==> LastAccess(access, Name(j)) == j
  }

  // After k puts and a pass over the first i tiers.
  ghost predicate Swept(tiers: seq<Tier>, s: Store, k: nat, i: nat) {
    && |s.backends| == |s.refs| == |tiers|
    && (forall j :: 0 <= j < |tiers| ==> s.refs[j] == s.backends[j].Keys == Held(tiers[j], k, j < i))
    && Stamped(s.access, k)
  }

  lemma PutSwept(tiers: seq<Tier>, s: Store, k: nat)
    requires WriteTiers(tiers, |tiers|) != {} && Swept(tiers, s, k, 0)
    ensures Swept(tiers, PutAll(tiers, s, Name(k), ENTRY, k), k + 1, 0)
  {
    var q := PutAll(tiers, s, Name(k), ENTRY, k);
    forall j | 0 <= j < |tiers|
      ensures q.refs[j] == q.backends[j].Keys == Held(tiers[j], k + 1, false)
    {
      assert s.refs[j] == Held(tiers[j], k, false);
    }
    assert forall j: nat :: j < k ==> |Name(j)| != |Name(k)|;
  }

  // es puts the first k references.
  ghost predicate PutsFirst(tiers: seq<Tier>, es: seq<Event>, k: nat) {
    && Run(tiers, Empty(tiers), es).Some?
    && Swept(tiers, Run(tiers, Empty(tiers), es).value, k, 0)
    && PlainRun(es).Keys == Names(k)
  }

  lemma NoPut(tiers: seq<Tier>)
    ensures PutsFirst(tiers, [], 0)
  {
    assert forall i :: 0 <= i < |tiers| ==> Empty(tiers).backends[i] == map[] && Empty(tiers).refs[i] == {};
  }

  lemma NextPut(tiers: seq<Tier>, es: seq<Event>, k: nat)
    requires WriteTiers(tiers, |tiers|) != {} && PutsFirst(tiers, es, k)
    ensures PutsFirst(tiers, es + [Put(Name(k), ENTRY, k)], k + 1)
  {
    var more := es + [Put(Name(k), ENTRY, k)];
    assert more[..|more| - 1] == es;
    PutSwept(tiers, Run(tiers, Empty(tiers), es).value, k);
    assert PlainRun(more) == PlainRun(es)[Name(k) := ENTRY];
  }

  lemma {:induction false} PutsRun(tiers: seq<Tier>, k: nat)
    requires WriteTiers(tiers, |tiers|) != {}
    ensures PutsFirst(tiers, Puts(k), k)
  {
    if k == 0 {
      NoPut(tiers);
    } else {
      PutsRun(tiers, k - 1);
      NextPut(tiers, Puts(k - 1), k - 1);
    }
  }

  lemma VictimsAreOldest(t: Tier, k: nat, access: map<Ref, Time>)
    requires t.policy.LRU? && t.writeThrough && 0 < t.maxObjects < k && Stamped(access, k)
    ensures IsEviction(t, Names(k), access, Victims(t, k), 2 * k) && Name(0) in Victims(t, k)
  {
    var gone := k - t.maxObjects;
    NamesCardinality(k);
    NamesCardinality(gone);
    InNames(gone, Name(0));
    forall v | v in Names(gone)
      ensures v in Names(k) && LastAccess(access, v) < gone
    {
      InNames(gone, v);
      InNames(k, v);
    }
    forall w | w in Names(k) - Names(gone)
      ensures LastAccess(access, w) >= gone
    {
      InNames(gone, w);
      InNames(k, w);
    }
  }

  lemma VictimsAreExpired(t: Tier, k: nat, access: map<Ref, Time>)
    requires t.policy.TTL? && t.writeThrough && 0 < t.ttl < k && Stamped(access, k)
    ensures IsEviction(t, Names(k), access, Victims(t, k), 2 * k) && Name(0) in Victims(t, k)
  {
    InNames(k, Name(0));
    forall r | r in Names(k)
      ensures 2 * k - LastAccess(access, r) > t.ttl
    {
      InNames(k, r);
    }
  }

  lemma VictimsAreEvicted(t: Tier, k: nat, access: map<Ref, Time>)
    requires t.maxObjects < k && t.ttl < k && Stamped(access, k)
    ensures IsEviction(t, Held(t, k, false), access, Victims(t, k), 2 * k)
    ensures t.writeThrough && !NeverEvicts(t) ==> Name(0) in Victims(t, k)
  {
    assert Held(t, k, false) == if t.writeThrough then Names(k) else {};
    if t.writeThrough {
      if t.policy.LRU? && t.maxObjects > 0 {
        VictimsAreOldest(t, k, access);
      } else if t.policy.TTL? && t.ttl > 0 {
        VictimsAreExpired(t, k, access);
      } else {
        NamesCardinality(k);
      }
    }
  }

  lemma SweepSwept(tiers: seq<Tier>, s: Store, k: nat, i: nat)
    requires Swept(tiers, s, k, i) && i < |tiers|
    ensures Swept(tiers, Evicted(s, i, Victims(tiers[i], k)), k, i + 1)
  {
  }

  lemma OneMore(tiers: seq<Tier>, es: seq<Event>, s: Store, i: nat, victims: set<Ref>, now: Time)
    requires Run(tiers, Empty(tiers), es) == Some(s) && i < |tiers| == |s.backends| == |s.refs|
    requires IsEviction(tiers[i], s.refs[i], s.access, victims, now)
    ensures Run(tiers, Empty(tiers), es + [Evict(i, victims, now)]) == Some(Evicted(s, i, victims))
    ensures PlainRun(es + [Evict(i, victims, now)]) == PlainRun(es)
  {
    assert (es + [Evict(i, victims, now)])[..|es|] == es;
  }

  // es puts k references and sweeps the first i tiers.
  ghost predicate PutsAndSweeps(tiers: seq<Tier>, k: nat, i: nat, es: seq<Event>) {
    && Run(tiers, Empty(tiers), es).Some?
    && Swept(tiers, Run(tiers, Empty(tiers), es).value, k, i)
    && PlainRun(es) == PlainRun(Puts(k))
  }

  lemma NextSweep(tiers: seq<Tier>, k: nat, i: nat, es: seq<Event>) returns (more: seq<Event>)
    requires i < |tiers| && Fits(tiers, k) && PutsAndSweeps(tiers, k, i, es)
    ensures PutsAndSweeps(tiers, k, i + 1, more)
  {
    var s := Run(tiers, Empty(tiers), es).value;
    assert tiers[i] in tiers;
    VictimsAreEvicted(tiers[i], k, s.access);
    SweepSwept(tiers, s, k, i);
    OneMore(tiers, es, s, i, Victims(tiers[i], k), 2 * k);
    more := es + [Evict(i, Victims(tiers[i], k), 2 * k)];
  }

  lemma {:induction false} SweepsRun(tiers: seq<Tier>, k: nat, i: nat) returns (es: seq<Event>)
    requires WriteTiers(tiers, |tiers|) != {} && i <= |tiers| && Fits(tiers, k)
    ensures PutsAndSweeps(tiers, k, i, es)
  {
    if i == 0 {
      PutsRun(tiers, k);
      es := Puts(k);
    } else {
      var front := SweepsRun(tiers, k, i - 1);
      es := NextSweep(tiers, k, i - 1, front);
    }
  }

  ghost predicate Loses(tiers: seq<Tier>, es: seq<Event>, ref: Ref) {
    && Run(tiers, Empty(tiers), es).Some?
    && ref in PlainRun(es) && Lookup(Run(tiers, Empty(tiers), es).value, ref).None?
  }

  lemma LossHappens(tiers: seq<Tier>)
    requires WriteTiers(tiers, |tiers|) != {} && !HasDurable(tiers)
    ensures exists es :: Loses(tiers, es, Name(0))
  {
    var k := Bound(tiers);
    var es := SweepsRun(tiers, k, |tiers|);
    PutsRun(tiers, k);
    FirstIsPut(k);
    var s := Run(tiers, Empty(tiers), es).value;
    forall i | 0 <= i < |tiers|
      ensures Name(0) !in s.backends[i]
    {
      assert tiers[i] in tiers && !Durable(tiers[i]);
      VictimsAreEvicted(tiers[i], k, s.access);
    }
    assert Loses(tiers, es, Name(0));
  }

  lemma FirstIsPut(k: nat)
    requires k > 0
    ensures Name(0) in Names(k)
  {
    InNames(k, Name(0));
  }

  ghost predicate Keeps(tiers: seq<Tier>, es: seq<Event>) {
    Run(tiers, Empty(tiers), es).Some? ==>
      forall ref :: ref in PlainRun(es) ==>
        Lookup(Run(tiers, Empty(tiers), es).value, ref) == Some(PlainRun(es)[ref].data)
  }

  // A store that can be written to keeps everything put and not deleted, over
  // every run, exactly when some write-through tier never evicts.
  lemma KeepsIffDurable(tiers: seq<Tier>)
    requires WriteTiers(tiers, |tiers|) != {}
    ensures (forall es :: Keeps(tiers, es)) <==> HasDurable(tiers)
  {
    if HasDurable(tiers) {
      forall es
        ensures Keeps(tiers, es)
      {
        if Run(tiers, Empty(tiers), es).Some? {
          forall ref | ref in PlainRun(es)
            ensures Lookup(Run(tiers, Empty(tiers), es).value, ref) == Some(PlainRun(es)[ref].data)
          {
            GetReturnsWhatWasPut(tiers, es, ref);
          }
        }
      }
    } else {
      LossHappens(tiers);
      var es :| Loses(tiers, es, Name(0));
      assert !Keeps(tiers, es);
    }
  }
}
