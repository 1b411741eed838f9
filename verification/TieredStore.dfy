// TieredSnapshotStore (tiered_store.py): a multi-level store that behaves as one
// map from references to bytes.  A backend is a faithful map; one event is one
// call of the store.
module TieredModel {
  import opened Wrappers
  import opened Collections

  type Ref = string
  type Bytes = seq<bv8>
  type Time = int

  datatype Policy = NONE | LRU | TTL | SIZE_BASED

  // One tier, in priority order; its backend is kept separately.
  datatype Tier = Tier(writeThrough: bool, policy: Policy, maxObjects: nat, maxBytes: nat, ttl: int)

  datatype Meta = Meta(actorId: string, tag: string, templateId: Option<string>, compression: string)

  datatype Entry = Entry(meta: Meta, data: Bytes)

  type Contents = map<Ref, Entry>

  // backends: what each tier's store holds.  refs: `_tier_refs`.
  datatype Store = Store(backends: seq<Contents>, refs: seq<set<Ref>>, access: map<Ref, Time>, metas: map<Ref, Meta>)

  datatype Event =
    | Put(ref: Ref, entry: Entry, now: Time)
    | Get(ref: Ref, now: Time, failing: set<nat>)
    | Copy(ref: Ref, target: Ref, actorId: string, tag: string, now: Time, failing: set<nat>)
    | Delete(ref: Ref)
    | Evict(tier: nat, victims: set<Ref>, now: Time)

  // ---- the store's operations ----

  function Insert(b: Contents, ref: Ref, e: Entry): Contents {
    b[ref := e]
  }

  // Write `e` to the backends the set names.
  function Written(bs: seq<Contents>, at: set<nat>, ref: Ref, e: Entry): (r: seq<Contents>)
    ensures |r| == |bs|
    ensures forall i :: 0 <= i < |bs| ==> r[i] == if i in at then Insert(bs[i], ref, e) else bs[i]
  {
    seq(|bs|, i requires 0 <= i < |bs| => if i in at then Insert(bs[i], ref, e) else bs[i])
  }

  function Tracked(refs: seq<set<Ref>>, at: set<nat>, ref: Ref): (r: seq<set<Ref>>)
    ensures |r| == |refs|
    ensures forall i :: 0 <= i < |refs| ==> r[i] == if i in at then refs[i] + {ref} else refs[i]
  {
    seq(|refs|, i requires 0 <= i < |refs| => if i in at then refs[i] + {ref} else refs[i])
  }

  // The write-through tiers among the first n.
  function WriteTiers(tiers: seq<Tier>, n: nat): set<nat> {
    set i: nat | i < n && i < |tiers| && tiers[i].writeThrough
  }

  // `put`: refused without a write-through tier.
  function PutAll(tiers: seq<Tier>, s: Store, ref: Ref, e: Entry, now: Time): Store {
    var at := WriteTiers(tiers, |tiers|);
    if at == {} then s
    else Store(Written(s.backends, at, ref, e), Tracked(s.refs, at, ref), s.access[ref := now], s.metas[ref := e.meta])
  }

  // The first tier holding ref, or the number of tiers.
  function FirstTier(bs: seq<Contents>, ref: Ref): (i: nat)
    ensures i <= |bs|
    ensures forall j :: 0 <= j < i ==> ref !in bs[j]
    ensures i < |bs| ==> ref in bs[i]
  {
    if bs == [] || ref in bs[0] then 0 else 1 + FirstTier(bs[1..], ref)
  }

  // `get`'s answer; None is the KeyError.
  function Lookup(s: Store, ref: Ref): Option<Bytes> {
    var i := FirstTier(s.backends, ref);
    if i < |s.backends| then Some(s.backends[i][ref].data) else None
  }

  // The tiers a hit in tier i is promoted to; a promotion that fails is logged
  // and ignored.
  function Promoted(tiers: seq<Tier>, s: Store, ref: Ref, failing: set<nat>): set<nat> {
    var i := FirstTier(s.backends, ref);
    if i < |s.backends| && ref in s.metas then WriteTiers(tiers, i) - failing else {}
  }

  // `get`: note the access, then promote what was found.
  function GetPromote(tiers: seq<Tier>, s: Store, ref: Ref, now: Time, failing: set<nat>): Store {
    var at := Promoted(tiers, s, ref, failing);
    var s1 := s.(access := s.access[ref := now]);
    if at == {} then s1
    else
      var e := Entry(s.metas[ref], Lookup(s, ref).value);
      s1.(backends := Written(s.backends, at, ref, e), refs := Tracked(s.refs, at, ref))
  }

  // `copy`: get, then put under the target's name.
  function CopyTo(tiers: seq<Tier>, s: Store, ref: Ref, target: Ref, actorId: string, tag: string, now: Time,
                  failing: set<nat>): Store {
    var s1 := GetPromote(tiers, s, ref, now, failing);
    match Lookup(s, ref)
    case None => s1
    case Some(data) => PutAll(tiers, s1, target, Entry(Meta(actorId, tag, None, "none"), data), now)
  }

  function DeleteAll(s: Store, ref: Ref): Store {
    Store(seq(|s.backends|, i requires 0 <= i < |s.backends| => s.backends[i] - {ref}),
          seq(|s.refs|, i requires 0 <= i < |s.refs| => s.refs[i] - {ref}),
          s.access - {ref}, s.metas - {ref})
  }

  // ---- eviction ----

  function LastAccess(access: map<Ref, Time>, ref: Ref): Time {
    if ref in access then access[ref] else 0
  }

  function Excess(n: nat, cap: nat): nat {
    if cap > 0 && n > cap then n - cap else 0
  }

  // What one pass of the sweeper over a tier may delete.
  ghost predicate IsEviction(t: Tier, refs: set<Ref>, access: map<Ref, Time>, victims: set<Ref>, now: Time) {
    match t.policy
    case LRU =>
      && victims <= refs && |victims| == Excess(|refs|, t.maxObjects)
      && forall v, w :: v in victims && w in refs - victims ==> LastAccess(access, v) <= LastAccess(access, w)
    case TTL => victims == set r | r in refs && t.ttl > 0 && now - LastAccess(access, r) > t.ttl
    case SIZE_BASED => victims == {}
    case NONE => victims == {}
  }

  function Evicted(s: Store, i: nat, victims: set<Ref>): Store
    requires i < |s.backends| == |s.refs|
  {
    s.(backends := s.backends[i := s.backends[i] - victims], refs := s.refs[i := s.refs[i] - victims])
  }

  ghost function Apply(tiers: seq<Tier>, s: Store, e: Event): Option<Store> {
    match e
    case Put(ref, entry, now) => Some(PutAll(tiers, s, ref, entry, now))
    case Get(ref, now, failing) => Some(GetPromote(tiers, s, ref, now, failing))
    case Copy(ref, target, actorId, tag, now, failing) =>
      Some(CopyTo(tiers, s, ref, target, actorId, tag, now, failing))
    case Delete(ref) => Some(DeleteAll(s, ref))
    case Evict(i, victims, now) =>
      if i < |tiers| && i < |s.backends| == |s.refs| && IsEviction(tiers[i], s.refs[i], s.access, victims, now)
      then Some(Evicted(s, i, victims)) else None
  }

  ghost function Run(tiers: seq<Tier>, s: Store, es: seq<Event>): Option<Store> {
    if es == [] then Some(s)
    else
      match Run(tiers, s, es[..|es| - 1])
      case None => None
      case Some(q) => Apply(tiers, q, es[|es| - 1])
  }

  function Empty(tiers: seq<Tier>): Store {
    Store(seq(|tiers|, _ => map[]), seq(|tiers|, _ => {}), map[], map[])
  }

  // ---- the plain map ----

  function Plain(m: Contents, e: Event): Contents {
    match e
    case Put(ref, entry, _) => m[ref := entry]
    case Copy(ref, target, actorId, tag, _, _) =>
      if ref in m then m[target := Entry(Meta(actorId, tag, None, "none"), m[ref].data)] else m
    case Delete(ref) => m - {ref}
    case Get(_, _, _) => m
    case Evict(_, _, _) => m
  }

  function PlainRun(es: seq<Event>): Contents {
    if es == [] then map[] else Plain(PlainRun(es[..|es| - 1]), es[|es| - 1])
  }

  // ---- refinement ----

  // No pass of the sweeper ever deletes anything from the tier.
  predicate NeverEvicts(t: Tier) {
    || t.policy.NONE? || t.policy.SIZE_BASED?
    || (t.policy.LRU? && t.maxObjects == 0)
    || (t.policy.TTL? && t.ttl <= 0)
  }

  predicate Durable(t: Tier) {
    t.writeThrough && NeverEvicts(t)
  }

  ghost predicate HasDurable(tiers: seq<Tier>) {
    exists i :: 0 <= i < |tiers| && Durable(tiers[i])
  }

  // What tier i holds is part of the map, and is what the store believes it
  // holds; a durable tier holds all of it, a tier that is not written through
  // nothing.
  ghost predicate TierOk(t: Tier, b: Contents, refs: set<Ref>, m: Contents) {
    && refs == b.Keys
    && (forall r :: r in b ==> r in m && b[r] == m[r])
    && (Durable(t) ==> b == m)
    && (!t.writeThrough ==> b == map[])
  }

  ghost predicate Represents(tiers: seq<Tier>, s: Store, m: Contents) {
    && |s.backends| == |s.refs| == |tiers|
    && (forall i :: 0 <= i < |tiers| ==> TierOk(tiers[i], s.backends[i], s.refs[i], m))
    && s.metas.Keys == m.Keys
    && (forall r :: r in m ==> s.metas[r] == m[r].meta)
    && m.Keys <= s.access.Keys
  }

  lemma PutRefines(tiers: seq<Tier>, s: Store, m: Contents, ref: Ref, e: Entry, now: Time)
    requires Represents(tiers, s, m) && WriteTiers(tiers, |tiers|) != {}
    ensures Represents(tiers, PutAll(tiers, s, ref, e, now), m[ref := e])
  {
  }

  lemma PromotedTier(t: Tier, b: Contents, refs: set<Ref>, m: Contents, ref: Ref)
    requires TierOk(t, b, refs, m) && t.writeThrough && ref in m
    ensures TierOk(t, Insert(b, ref, m[ref]), refs + {ref}, m)
  {
  }

  lemma GetRefines(tiers: seq<Tier>, s: Store, m: Contents, ref: Ref, now: Time, failing: set<nat>)
    requires Represents(tiers, s, m)
    ensures Represents(tiers, GetPromote(tiers, s, ref, now, failing), m)
  {
    var at, q := Promoted(tiers, s, ref, failing), GetPromote(tiers, s, ref, now, failing);
    if at != {} {
      var i := FirstTier(s.backends, ref);
      assert TierOk(tiers[i], s.backends[i], s.refs[i], m);
      assert Entry(s.metas[ref], Lookup(s, ref).value) == m[ref];
      forall j | 0 <= j < |tiers|
        ensures TierOk(tiers[j], q.backends[j], q.refs[j], m)
      {
        assert TierOk(tiers[j], s.backends[j], s.refs[j], m);
        if j in at {
          PromotedTier(tiers[j], s.backends[j], s.refs[j], m, ref);
        }
      }
    }
  }

  lemma DeleteRefines(tiers: seq<Tier>, s: Store, m: Contents, ref: Ref)
    requires Represents(tiers, s, m)
    ensures Represents(tiers, DeleteAll(s, ref), m - {ref})
  {
  }

  lemma EvictRefines(tiers: seq<Tier>, s: Store, m: Contents, i: nat, victims: set<Ref>, now: Time)
    requires Represents(tiers, s, m) && i < |tiers| && IsEviction(tiers[i], s.refs[i], s.access, victims, now)
    ensures Represents(tiers, Evicted(s, i, victims), m)
  {
    if NeverEvicts(tiers[i]) {
      assert victims == {};
      assert s.backends[i] - victims == s.backends[i];
    }
    assert TierOk(tiers[i], s.backends[i], s.refs[i], m);
  }

  lemma DurableIsWritten(tiers: seq<Tier>)
    requires HasDurable(tiers)
    ensures WriteTiers(tiers, |tiers|) != {}
  {
    var i :| 0 <= i < |tiers| && Durable(tiers[i]);
    assert i in WriteTiers(tiers, |tiers|);
  }

  // A hit returns the map's bytes, whichever tier it comes from; with a durable
  // tier every entry of the map is a hit.
  lemma LookupAgrees(tiers: seq<Tier>, s: Store, m: Contents, ref: Ref)
    requires Represents(tiers, s, m)
    ensures Lookup(s, ref).Some? ==> ref in m && Lookup(s, ref).value == m[ref].data
    ensures HasDurable(tiers) ==> Lookup(s, ref) == if ref in m then Some(m[ref].data) else None
  {
    var i := FirstTier(s.backends, ref);
    if i < |s.backends| {
      assert TierOk(tiers[i], s.backends[i], s.refs[i], m);
    }
    if HasDurable(tiers) && ref in m {
      var d :| 0 <= d < |tiers| && Durable(tiers[d]);
      assert TierOk(tiers[d], s.backends[d], s.refs[d], m);
    }
  }

  lemma StepRefines(tiers: seq<Tier>, s: Store, m: Contents, e: Event)
    requires HasDurable(tiers) && Represents(tiers, s, m) && Apply(tiers, s, e).Some?
    ensures Represents(tiers, Apply(tiers, s, e).value, Plain(m, e))
  {
    DurableIsWritten(tiers);
    match e
    case Put(ref, entry, now) => PutRefines(tiers, s, m, ref, entry, now);
    case Get(ref, now, failing) => GetRefines(tiers, s, m, ref, now, failing);
    case Copy(ref, target, actorId, tag, now, failing) =>
      GetRefines(tiers, s, m, ref, now, failing);
      LookupAgrees(tiers, s, m, ref);
      if ref in m {
        PutRefines(tiers, GetPromote(tiers, s, ref, now, failing), m, target,
                   Entry(Meta(actorId, tag, None, "none"), m[ref].data), now);
      }
    case Delete(ref) => DeleteRefines(tiers, s, m, ref);
    case Evict(i, victims, now) => EvictRefines(tiers, s, m, i, victims, now);
  }

  // Over any sequence of calls and sweeps, the store represents the plain map.
  lemma {:induction false} RunRefines(tiers: seq<Tier>, es: seq<Event>)
    requires HasDurable(tiers) && Run(tiers, Empty(tiers), es).Some?
    ensures Represents(tiers, Run(tiers, Empty(tiers), es).value, PlainRun(es))
  {
    if es == [] {
    } else {
      var front := es[..|es| - 1];
      RunRefines(tiers, front);
      StepRefines(tiers, Run(tiers, Empty(tiers), front).value, PlainRun(front), es[|es| - 1]);
    }
  }

  // ---- what callers see ----

  lemma GetReturnsWhatWasPut(tiers: seq<Tier>, es: seq<Event>, ref: Ref)
    requires HasDurable(tiers) && Run(tiers, Empty(tiers), es).Some?
    ensures Lookup(Run(tiers, Empty(tiers), es).value, ref)
      == if ref in PlainRun(es) then Some(PlainRun(es)[ref].data) else None
  {
    RunRefines(tiers, es);
    LookupAgrees(tiers, Run(tiers, Empty(tiers), es).value, PlainRun(es), ref);
  }

  // All copies of a reference are equal, and each tier tracks what it holds.
  lemma CopiesAgree(tiers: seq<Tier>, es: seq<Event>, i: nat, j: nat, ref: Ref)
    requires HasDurable(tiers) && Run(tiers, Empty(tiers), es).Some? && i < |tiers| && j < |tiers|
    ensures var s := Run(tiers, Empty(tiers), es).value;
      && |s.backends| == |s.refs| == |tiers|
      && s.refs[i] == s.backends[i].Keys
      && (ref in s.backends[i] && ref in s.backends[j] ==> s.backends[i][ref] == s.backends[j][ref])
  {
    RunRefines(tiers, es);
    var s := Run(tiers, Empty(tiers), es).value;
    assert TierOk(tiers[i], s.backends[i], s.refs[i], PlainRun(es));
    assert TierOk(tiers[j], s.backends[j], s.refs[j], PlainRun(es));
  }

  predicate MatchesList(m: Meta, actorId: string, tag: Option<string>) {
    m.actorId == actorId && (tag.None? || tag.value == m.tag)
  }

  ghost predicate Listed(s: Store, actorId: string, tag: Option<string>, ref: Ref) {
    exists i :: 0 <= i < |s.backends| && ref in s.backends[i] && MatchesList(s.backends[i][ref].meta, actorId, tag)
  }

  // The tiers together list exactly the actor's live references.
  lemma ListIsLive(tiers: seq<Tier>, es: seq<Event>, actorId: string, tag: Option<string>, ref: Ref)
    requires HasDurable(tiers) && Run(tiers, Empty(tiers), es).Some?
    ensures Listed(Run(tiers, Empty(tiers), es).value, actorId, tag, ref)
      <==> ref in PlainRun(es) && MatchesList(PlainRun(es)[ref].meta, actorId, tag)
  {
    RunRefines(tiers, es);
    var s, m := Run(tiers, Empty(tiers), es).value, PlainRun(es);
    var d :| 0 <= d < |tiers| && Durable(tiers[d]);
    assert TierOk(tiers[d], s.backends[d], s.refs[d], m);
    if Listed(s, actorId, tag, ref) {
      var i :| 0 <= i < |s.backends| && ref in s.backends[i] && MatchesList(s.backends[i][ref].meta, actorId, tag);
      assert TierOk(tiers[i], s.backends[i], s.refs[i], m);
    }
  }

  // ---- promotion ----

  lemma FirstTierUpTo(bs: seq<Contents>, ref: Ref, i: nat)
    requires i < |bs| && ref in bs[i]
    ensures FirstTier(bs, ref) <= i
  {
  }

  // After a get that found ref, a get finds it no lower, and every write-through
  // tier above that accepted it holds it.
  lemma GetPromotes(tiers: seq<Tier>, s: Store, m: Contents, ref: Ref, now: Time, failing: set<nat>, j: nat)
    requires Represents(tiers, s, m) && FirstTier(s.backends, ref) < |tiers|
    ensures ref in m
    ensures var q := GetPromote(tiers, s, ref, now, failing);
      && FirstTier(q.backends, ref) <= FirstTier(s.backends, ref)
      && (j < FirstTier(s.backends, ref) && tiers[j].writeThrough && j !in failing ==>
            FirstTier(q.backends, ref) <= j && ref in q.backends[j] && q.backends[j][ref] == m[ref])
  {
    var i := FirstTier(s.backends, ref);
    assert TierOk(tiers[i], s.backends[i], s.refs[i], m);
    var q := GetPromote(tiers, s, ref, now, failing);
    FirstTierUpTo(q.backends, ref, i);
    if j < i && tiers[j].writeThrough && j !in failing {
      assert j in Promoted(tiers, s, ref, failing);
      FirstTierUpTo(q.backends, ref, j);
    }
  }

  // ---- a delete that overtakes a promotion ----

  // The writes of a promotion to some of its tiers.
  function PromoteTo(s: Store, at: set<nat>, ref: Ref, e: Entry): Store {
    s.(backends := Written(s.backends, at, ref, e), refs := Tracked(s.refs, at, ref))
  }

  // Nothing locks the store, so a delete can run between a get's hit and the
  // last of its promotions, with the tiers `late` still to be written.  (TieredRace
  // has all interleavings, tier by tier.)
  function Overtaken(tiers: seq<Tier>, s: Store, ref: Ref, failing: set<nat>, late: set<nat>): Store {
    var at := Promoted(tiers, s, ref, failing);
    if at == {} then DeleteAll(s, ref)
    else
      var e := Entry(s.metas[ref], Lookup(s, ref).value);
      PromoteTo(DeleteAll(PromoteTo(s, at - late, ref, e), ref), late, ref, e)
  }

  // The deleted reference is back exactly if a tier was still to be written;
  // and then with its old bytes, and never promoted again.
  lemma OvertakenRevivesIff(tiers: seq<Tier>, s: Store, m: Contents, ref: Ref, failing: set<nat>, late: set<nat>)
    requires Represents(tiers, s, m) && late <= Promoted(tiers, s, ref, failing)
    ensures var q := Overtaken(tiers, s, ref, failing, late);
      && (Lookup(q, ref).Some? <==> late != {})
      && (late != {} ==> ref in m && Lookup(q, ref) == Some(m[ref].data))
      && ref !in q.metas
  {
    var q := Overtaken(tiers, s, ref, failing, late);
    LookupAgrees(tiers, s, m, ref);
    if late != {} {
      var j :| j in late;
      assert ref in q.backends[j];
      FirstTierUpTo(q.backends, ref, j);
      assert FirstTier(q.backends, ref) in late;
    } else {
      assert forall j :: 0 <= j < |q.backends| ==> ref !in q.backends[j];
    }
  }

  // ---- byte caps ----

  ghost function BytesIn(b: Contents): nat
    decreases b.Keys
  {
    if b == map[] then 0
    else
      var r :| r in b;
      |b[r].data| + BytesIn(b - {r})
  }

  predicate OverCount(t: Tier, refs: set<Ref>) {
    t.maxObjects > 0 && |refs| > t.maxObjects
  }

  ghost predicate OverBytes(t: Tier, b: Contents) {
    t.maxBytes > 0 && BytesIn(b) > t.maxBytes
  }

  // A pass under LRU evicts when one of the caps is exceeded, as the
  // documentation says, exactly unless only the byte cap is.
  lemma LruEvictsAsPromisedIff(t: Tier, b: Contents, access: map<Ref, Time>, victims: set<Ref>, now: Time)
    requires t.policy.LRU? && IsEviction(t, b.Keys, access, victims, now)
    ensures (victims != {} <==> OverBytes(t, b) || OverCount(t, b.Keys)) <==>
      (OverBytes(t, b) ==> OverCount(t, b.Keys))
  {
    assert victims != {} ==> |victims| > 0;
  }

  // A put that fills a tier past its byte cap, after which no pass ever
  // evicts, whatever the policy.
  lemma ByteCapIsIgnored(cap: nat, policy: Policy, victims: set<Ref>, now: Time)
    requires cap > 0
    ensures var tiers, e := [Tier(true, policy, 1, cap, 0)], Entry(Meta("a", "t", None, "none"), seq(cap + 1, _ => 0));
      var q := PutAll(tiers, Empty(tiers), "r", e, 0);
      && OverBytes(tiers[0], q.backends[0])
      && (IsEviction(tiers[0], q.refs[0], q.access, victims, now) ==> victims == {})
  {
    var tiers, e := [Tier(true, policy, 1, cap, 0)], Entry(Meta("a", "t", None, "none"), seq(cap + 1, _ => 0));
    assert 0 in WriteTiers(tiers, 1);
    var q := PutAll(tiers, Empty(tiers), "r", e, 0);
    assert q.backends[0] == map["r" := e] && q.refs[0] == {"r"};
    assert map["r" := e] - {"r"} == map[];
    assert BytesIn(q.backends[0]) == cap + 1;
  }

  // Calls that neither evict nor delete ref.
  predicate Gentle(es: seq<Event>, ref: Ref) {
    forall e :: e in es ==> !e.Evict? && (e.Delete? ==> e.ref != ref)
  }

  lemma GentleKeepsTier(tiers: seq<Tier>, s: Store, e: Event, ref: Ref)
    requires Apply(tiers, s, e).Some? && Gentle([e], ref)
    ensures var q := Apply(tiers, s, e).value;
      |q.backends| == |s.backends| && FirstTier(q.backends, ref) <= FirstTier(s.backends, ref)
  {
    assert e in [e];
    var i := FirstTier(s.backends, ref);
    if i < |s.backends| {
      FirstTierUpTo(Apply(tiers, s, e).value.backends, ref, i);
    }
  }

  // With no eviction in between, a later get hits no lower a tier.
  lemma {:induction false} RepeatedGetHitsNoLower(tiers: seq<Tier>, s: Store, es: seq<Event>, ref: Ref)
    requires Run(tiers, s, es).Some? && Gentle(es, ref)
    ensures var q := Run(tiers, s, es).value;
      |q.backends| == |s.backends| && FirstTier(q.backends, ref) <= FirstTier(s.backends, ref)
  {
    if es == [] {
    } else {
      var front, e := es[..|es| - 1], es[|es| - 1];
      assert es == front + [e];
      RepeatedGetHitsNoLower(tiers, s, front, ref);
      GentleKeepsTier(tiers, Run(tiers, s, front).value, e, ref);
    }
  }
}
