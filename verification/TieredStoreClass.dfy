// The TieredSnapshotStore class (tiered_store.py), method by method.
module TieredStores {
  import opened Wrappers
  import opened Collections
  import opened T = TieredModel

  // `sorted` over the tracked references: oldest access first.
  predicate Sorted(access: map<Ref, Time>, order: seq<Ref>) {
    forall i, j :: 0 <= i < j < |order| ==> LastAccess(access, order[i]) <= LastAccess(access, order[j])
  }

  class TieredSnapshotStore {
    const tiers: seq<Tier>
    // What each tier's backend holds.
    var backends: seq<Contents>
    var tierRefs: seq<set<Ref>>
    var accessTimes: map<Ref, Time>
    var metaCache: map<Ref, Meta>

    function State(): Store
      reads this
    {
      Store(backends, tierRefs, accessTimes, metaCache)
    }

    ghost predicate Valid()
      reads this
    {
      |backends| == |tierRefs| == |tiers|
    }

    constructor (ts: seq<Tier>)
      ensures Valid() && tiers == ts && State() == Empty(ts)
    {
      tiers := ts;
      backends, tierRefs := seq(|ts|, _ => map[]), seq(|ts|, _ => {});
      accessTimes, metaCache := map[], map[];
    }

    // False is the RuntimeError for a store with no write-through tier.
    method Put(ref: Ref, entry: Entry, now: Time) returns (ok: bool)
      requires Valid()
      modifies this
      ensures Valid() && State() == PutAll(tiers, old(State()), ref, entry, now)
      ensures ok <==> WriteTiers(tiers, |tiers|) != {}
    {
      ok := false;
      var i := 0;
      while i < |tiers|
        invariant i <= |tiers| && Valid() && accessTimes == old(accessTimes) && metaCache == old(metaCache)
        invariant backends == Written(old(backends), WriteTiers(tiers, i), ref, entry)
        invariant tierRefs == Tracked(old(tierRefs), WriteTiers(tiers, i), ref)
        invariant ok <==> WriteTiers(tiers, i) != {}
      {
        if tiers[i].writeThrough {
          backends := backends[i := backends[i][ref := entry]];
          tierRefs := tierRefs[i := tierRefs[i] + {ref}];
          ok := true;
        }
        assert WriteTiers(tiers, i + 1) == WriteTiers(tiers, i) + (if tiers[i].writeThrough then {i} else {});
        i := i + 1;
      }
      if ok {
        metaCache := metaCache[ref := entry.meta];
        accessTimes := accessTimes[ref := now];
      } else {
        assert backends == old(backends) && tierRefs == old(tierRefs);
      }
    }

    // The search: the first tier holding ref.
    method Find(ref: Ref) returns (found: nat)
      requires Valid()
      ensures found == FirstTier(backends, ref)
    {
      found := 0;
      while found < |backends| && ref !in backends[found]
        invariant found <= |backends|
        invariant forall j :: 0 <= j < found ==> ref !in backends[j]
      {
        found := found + 1;
      }
      FirstTierUnique(backends, ref, found);
    }

    // Copy what was found in tier `found` into the write-through tiers above it;
    // `failing` are the tiers whose backend refuses.
    method Promote(ref: Ref, entry: Entry, found: nat, failing: set<nat>)
      requires Valid() && found <= |tiers|
      modifies this`backends, this`tierRefs
      ensures Valid()
      ensures backends == Written(old(backends), WriteTiers(tiers, found) - failing, ref, entry)
      ensures tierRefs == Tracked(old(tierRefs), WriteTiers(tiers, found) - failing, ref)
    {
      var j := 0;
      while j < found
        invariant j <= found && Valid()
        invariant backends == Written(old(backends), WriteTiers(tiers, j) - failing, ref, entry)
        invariant tierRefs == Tracked(old(tierRefs), WriteTiers(tiers, j) - failing, ref)
      {
        if tiers[j].writeThrough && j !in failing {
          backends := backends[j := backends[j][ref := entry]];
          tierRefs := tierRefs[j := tierRefs[j] + {ref}];
        }
        assert WriteTiers(tiers, j + 1) == WriteTiers(tiers, j) + (if tiers[j].writeThrough then {j} else {});
        j := j + 1;
      }
    }

    // None is the KeyError.
    method Get(ref: Ref, now: Time, failing: set<nat>) returns (r: Option<Bytes>)
      requires Valid()
      modifies this
      ensures Valid() && State() == GetPromote(tiers, old(State()), ref, now, failing)
      ensures r == Lookup(old(State()), ref)
    {
      accessTimes := accessTimes[ref := now];
      var found := Find(ref);
      if found == |backends| {
        return None;
      }
      r := Some(backends[found][ref].data);
      if ref in metaCache {
        ghost var bs, rs := backends, tierRefs;
        Promote(ref, Entry(metaCache[ref], r.value), found, failing);
        if WriteTiers(tiers, found) - failing == {} {
          assert backends == bs && tierRefs == rs;
        }
      }
    }

    method Copy(ref: Ref, target: Ref, actorId: string, tag: string, now: Time, failing: set<nat>)
        returns (r: Option<bool>)
      requires Valid()
      modifies this
      ensures Valid() && State() == CopyTo(tiers, old(State()), ref, target, actorId, tag, now, failing)
      ensures r.None? <==> Lookup(old(State()), ref).None?
    {
      var data := Get(ref, now, failing);
      if data.None? {
        return None;
      }
      var ok := Put(target, Entry(Meta(actorId, tag, None, "none"), data.value), now);
      r := Some(ok);
    }

    method Delete(ref: Ref)
      requires Valid()
      modifies this
      ensures Valid() && State() == DeleteAll(old(State()), ref)
    {
      var i := 0;
      while i < |tiers|
        invariant i <= |tiers| && Valid() && accessTimes == old(accessTimes) && metaCache == old(metaCache)
        invariant forall j :: 0 <= j < |tiers| ==>
          backends[j] == if j < i then old(backends)[j] - {ref} else old(backends)[j]
        invariant forall j :: 0 <= j < |tiers| ==>
          tierRefs[j] == if j < i then old(tierRefs)[j] - {ref} else old(tierRefs)[j]
      {
        backends := backends[i := backends[i] - {ref}];
        tierRefs := tierRefs[i := tierRefs[i] - {ref}];
        i := i + 1;
      }
      accessTimes := accessTimes - {ref};
      metaCache := metaCache - {ref};
    }

    // What one backend lists, each reference once.
    method ListTier(i: nat, actorId: string, tag: Option<string>, seen: set<Ref>) returns (r: seq<Ref>)
      requires Valid() && i < |tiers|
      ensures NoDup(r)
      ensures forall x :: x in r <==> x in backends[i] && x !in seen && MatchesList(backends[i][x].meta, actorId, tag)
    {
      r := [];
      var todo := backends[i].Keys;
      while todo != {}
        invariant todo <= backends[i].Keys && NoDup(r)
        invariant forall x :: x in r <==>
          x in backends[i].Keys - todo && x !in seen && MatchesList(backends[i][x].meta, actorId, tag)
        decreases |todo|
      {
        var x :| x in todo;
        todo := todo - {x};
        if x !in seen && MatchesList(backends[i][x].meta, actorId, tag) {
          r := r + [x];
        }
      }
    }

    // Every listed reference exactly once, however many tiers hold it.
    method List(actorId: string, tag: Option<string>) returns (r: seq<Ref>)
      requires Valid()
      ensures NoDup(r)
      ensures forall x :: x in r <==> Listed(State(), actorId, tag, x)
    {
      r := [];
      var seen: set<Ref> := {};
      var i := 0;
      while i < |tiers|
        invariant i <= |tiers| && NoDup(r) && seen == SetOf(r)
        invariant forall x :: x in r <==>
          exists j :: 0 <= j < i && x in backends[j] && MatchesList(backends[j][x].meta, actorId, tag)
      {
        var more := ListTier(i, actorId, tag, seen);
        NoDupConcat(r, more);
        r := r + more;
        seen := seen + SetOf(more);
        i := i + 1;
      }
    }

    // ---- eviction ----

    method Oldest(refs: set<Ref>) returns (r: Ref)
      requires refs != {}
      ensures r in refs && forall x :: x in refs ==> LastAccess(accessTimes, r) <= LastAccess(accessTimes, x)
    {
      r :| r in refs;
      var todo := refs - {r};
      while todo != {}
        invariant todo <= refs && r in refs
        invariant forall x :: x in refs - todo ==> LastAccess(accessTimes, r) <= LastAccess(accessTimes, x)
        decreases |todo|
      {
        var x :| x in todo;
        todo := todo - {x};
        if LastAccess(accessTimes, x) < LastAccess(accessTimes, r) {
          r := x;
        }
      }
    }

    // The references in order of their last access, oldest first.
    method SortedRefs(refs: set<Ref>) returns (order: seq<Ref>)
      ensures NoDup(order) && SetOf(order) == refs && Sorted(accessTimes, order)
    {
      order := [];
      var todo := refs;
      while todo != {}
        invariant NoDup(order) && SetOf(order) == refs - todo && todo <= refs && Sorted(accessTimes, order)
        invariant forall x, y :: x in order && y in todo ==> LastAccess(accessTimes, x) <= LastAccess(accessTimes, y)
        decreases |todo|
      {
        var x := Oldest(todo);
        todo := todo - {x};
        assert x !in SetOf(order);
        NoDupConcat(order, [x]);
        order := order + [x];
      }
    }

    method Discard(i: nat, ref: Ref)
      requires Valid() && i < |tiers|
      modifies this`backends, this`tierRefs
      ensures Valid() && State() == Evicted(old(State()), i, {ref})
    {
      backends := backends[i := backends[i] - {ref}];
      tierRefs := tierRefs[i := tierRefs[i] - {ref}];
    }

    // One pass over an LRU tier.
    method EvictOldest(i: nat, ghost now: Time) returns (victims: set<Ref>)
      requires Valid() && i < |tiers| && tiers[i].policy.LRU?
      modifies this`backends, this`tierRefs
      ensures Valid() && IsEviction(tiers[i], old(tierRefs)[i], accessTimes, victims, now)
      ensures State() == Evicted(old(State()), i, victims)
    {
      ghost var refs := tierRefs[i];
      var order := SortedRefs(tierRefs[i]);
      NoDupCardinality(order);
      victims := {};
      EvictedNone(State(), i);
      var k := 0;
      while k < |order| && tiers[i].maxObjects > 0 && |tierRefs[i]| > tiers[i].maxObjects
        invariant k <= |order| && Valid() && victims == SetOf(order[..k]) && k <= Excess(|refs|, tiers[i].maxObjects)
        invariant State() == Evicted(old(State()), i, victims) && |tierRefs[i]| == |refs| - k
      {
        TakeOne(order, k);
        EvictedMore(old(State()), i, victims, order[k]);
        Discard(i, order[k]);
        victims := victims + {order[k]};
        k := k + 1;
      }
      OldestEvicted(tiers[i], refs, accessTimes, order, k, now);
    }

    // One pass over a TTL tier.
    method EvictExpired(i: nat, now: Time) returns (victims: set<Ref>)
      requires Valid() && i < |tiers| && tiers[i].policy.TTL?
      modifies this`backends, this`tierRefs
      ensures Valid() && IsEviction(tiers[i], old(tierRefs)[i], accessTimes, victims, now)
      ensures State() == Evicted(old(State()), i, victims)
    {
      victims := {};
      EvictedNone(State(), i);
      if tiers[i].ttl <= 0 {
        return;
      }
      ghost var refs := tierRefs[i];
      var todo := tierRefs[i];
      while todo != {}
        invariant todo <= refs && Valid()
        invariant forall r :: r in victims <==> r in refs - todo && now - LastAccess(accessTimes, r) > tiers[i].ttl
        invariant State() == Evicted(old(State()), i, victims)
        decreases |todo|
      {
        var ref :| ref in todo;
        todo := todo - {ref};
        if now - LastAccess(accessTimes, ref) > tiers[i].ttl {
          EvictedMore(old(State()), i, victims, ref);
          Discard(i, ref);
          victims := victims + {ref};
        }
      }
    }

    method EvictTier(i: nat, now: Time) returns (victims: set<Ref>)
      requires Valid() && i < |tiers|
      modifies this`backends, this`tierRefs
      ensures Valid() && IsEviction(tiers[i], old(tierRefs)[i], accessTimes, victims, now)
      ensures State() == Evicted(old(State()), i, victims)
    {
      match tiers[i].policy
      case LRU => victims := EvictOldest(i, now);
      case TTL => victims := EvictExpired(i, now);
      case _ =>
        victims := {};
        EvictedNone(State(), i);
    }

    // One sweep: a pass over each tier, in order; `clock` is the time each
    // pass reads.
    method SweepOnce(clock: seq<Time>) returns (victims: seq<set<Ref>>)
      requires Valid() && |clock| == |tiers|
      modifies this`backends, this`tierRefs
      ensures Valid() && |victims| == |tiers|
      ensures forall i :: 0 <= i < |tiers| ==>
        && IsEviction(tiers[i], old(tierRefs)[i], accessTimes, victims[i], clock[i])
        && backends[i] == old(backends)[i] - victims[i] && tierRefs[i] == old(tierRefs)[i] - victims[i]
    {
      victims := [];
      var i := 0;
      while i < |tiers|
        invariant i <= |tiers| && Valid() && |victims| == i
        invariant forall j :: 0 <= j < i ==>
          && IsEviction(tiers[j], old(tierRefs)[j], accessTimes, victims[j], clock[j])
          && backends[j] == old(backends)[j] - victims[j] && tierRefs[j] == old(tierRefs)[j] - victims[j]
        invariant forall j :: i <= j < |tiers| ==> backends[j] == old(backends)[j] && tierRefs[j] == old(tierRefs)[j]
      {
        var gone: set<Ref> := {};
        if tiers[i].policy.NONE? {
          assert backends[i] - {} == backends[i];
        } else {
          gone := EvictTier(i, clock[i]);
        }
        victims := victims + [gone];
        i := i + 1;
      }
    }
  }

  lemma EvictedNone(s: Store, i: nat)
    requires i < |s.backends| == |s.refs|
    ensures Evicted(s, i, {}) == s
  {
    assert s.backends[i] - {} == s.backends[i] && s.refs[i] - {} == s.refs[i];
    assert s.backends[i := s.backends[i]] == s.backends && s.refs[i := s.refs[i]] == s.refs;
  }

  lemma EvictedMore(s: Store, i: nat, victims: set<Ref>, ref: Ref)
    requires i < |s.backends| == |s.refs|
    ensures Evicted(Evicted(s, i, victims), i, {ref}) == Evicted(s, i, victims + {ref})
    ensures ref in s.refs[i] - victims ==> |Evicted(s, i, victims + {ref}).refs[i]| == |s.refs[i] - victims| - 1
  {
    assert s.backends[i] - victims - {ref} == s.backends[i] - (victims + {ref});
    assert s.refs[i] - victims - {ref} == s.refs[i] - (victims + {ref});
  }

  lemma TakeOne(order: seq<Ref>, k: nat)
    requires NoDup(order) && k < |order|
    ensures SetOf(order[..k + 1]) == SetOf(order[..k]) + {order[k]}
    ensures order[k] in SetOf(order) - SetOf(order[..k])
  {
    assert order[..k + 1] == order[..k] + [order[k]];
  }

  // Whatever is left of an ordered list was accessed no earlier than what went.
  lemma OldestFirst(access: map<Ref, Time>, order: seq<Ref>, k: nat)
    requires k <= |order| && Sorted(access, order)
    ensures forall v, w :: v in SetOf(order[..k]) && w in SetOf(order) - SetOf(order[..k]) ==>
      LastAccess(access, v) <= LastAccess(access, w)
  {
    forall v, w | v in SetOf(order[..k]) && w in SetOf(order) - SetOf(order[..k])
      ensures LastAccess(access, v) <= LastAccess(access, w)
    {
      var i :| 0 <= i < k && order[i] == v;
      var j :| 0 <= j < |order| && order[j] == w;
      assert order[..k] + order[k..] == order;
    }
  }

  lemma OldestEvicted(t: Tier, refs: set<Ref>, access: map<Ref, Time>, order: seq<Ref>, k: nat, now: Time)
    requires t.policy.LRU? && NoDup(order) && SetOf(order) == refs && Sorted(access, order)
    requires k <= |order| && k == Excess(|refs|, t.maxObjects)
    ensures IsEviction(t, refs, access, SetOf(order[..k]), now)
  {
    OldestFirst(access, order, k);
    NoDupCardinality(order[..k]);
  }

  lemma {:induction false} FirstTierUnique(bs: seq<Contents>, ref: Ref, i: nat)
    requires i <= |bs| && (forall j :: 0 <= j < i ==> ref !in bs[j]) && (i < |bs| ==> ref in bs[i])
    ensures FirstTier(bs, ref) == i
  {
    if i > 0 {
      FirstTierUnique(bs[1..], ref, i - 1);
    }
  }
}
