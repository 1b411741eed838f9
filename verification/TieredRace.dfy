// Gets and sweeps running while a reference is deleted (tiered_store.py).  The
// loops of `get` and `delete` wait at every tier, and nothing locks the store.
module TieredRace {
  import opened Wrappers
  import opened TieredModel

  // A get of the reference: which tier it asks next, or which it writes next
  // with what it has found, and where; or what it returned, None for KeyError.
  datatype Getter =
    | Seeking(tier: nat)
    | Promoting(found: nat, tier: nat, entry: Entry)
    | Over(data: Option<Bytes>)

  // passed: the tiers the delete has been through.  late: those of them that
  // were written after it, and not swept since (history).
  datatype Race = Race(store: Store, gets: map<nat, Getter>, passed: nat, late: set<nat>)

  datatype Event =
    | BeginGet(id: nat, now: Time)
    | Seek(id: nat)
    | Promote(id: nat, fails: bool)
    | DeleteTier
    | Sweep(tier: nat)

  // ---- the steps ----

  function Sought(s: Store, ref: Ref, i: nat): Getter {
    if i >= |s.backends| then Over(None)
    else if ref !in s.backends[i] then Seeking(i + 1)
    else if ref in s.metas then Promoting(i, 0, Entry(s.metas[ref], s.backends[i][ref].data))
    else Over(Some(s.backends[i][ref].data))
  }

  function Write(s: Store, j: nat, ref: Ref, e: Entry): Store
    requires j < |s.backends| && j < |s.refs|
  {
    s.(backends := s.backends[j := Insert(s.backends[j], ref, e)], refs := s.refs[j := s.refs[j] + {ref}])
  }

  function Remove(s: Store, j: nat, ref: Ref): Store
    requires j < |s.backends| && j < |s.refs|
  {
    s.(backends := s.backends[j := s.backends[j] - {ref}], refs := s.refs[j := s.refs[j] - {ref}])
  }

  // What a promotion does at tier j.
  function Promoted1(tiers: seq<Tier>, r: Race, ref: Ref, j: nat, e: Entry, fails: bool): Race
    requires j < |tiers| && j < |r.store.backends| && j < |r.store.refs|
  {
    if !tiers[j].writeThrough || fails then r
    else r.(store := Write(r.store, j, ref, e), late := if j < r.passed then r.late + {j} else r.late)
  }

  // The delete at its next tier; after the last one the store forgets the rest.
  function Deleted1(r: Race, ref: Ref): Race
    requires r.passed < |r.store.backends| && r.passed < |r.store.refs|
  {
    var s := Remove(r.store, r.passed, ref);
    var last := r.passed + 1 == |s.backends|;
    r.(store := if last then s.(access := s.access - {ref}, metas := s.metas - {ref}) else s, passed := r.passed + 1)
  }

  function Apply(tiers: seq<Tier>, r: Race, ref: Ref, e: Event): Option<Race> {
    var n := |tiers|;
    if |r.store.backends| != n || |r.store.refs| != n then None
    else
      match e
      case BeginGet(id, now) =>
        if id in r.gets then None
        else Some(r.(store := r.store.(access := r.store.access[ref := now]), gets := r.gets[id := Seeking(0)]))
      case Seek(id) =>
        if id in r.gets && r.gets[id].Seeking? then
          Some(r.(gets := r.gets[id := Sought(r.store, ref, r.gets[id].tier)]))
        else None
      case Promote(id, fails) =>
        if id !in r.gets || !r.gets[id].Promoting? then None
        else
          var g := r.gets[id];
          if g.tier >= g.found || g.tier >= n then Some(r.(gets := r.gets[id := Over(Some(g.entry.data))]))
          else
            var q := Promoted1(tiers, r, ref, g.tier, g.entry, fails);
            Some(q.(gets := q.gets[id := g.(tier := g.tier + 1)]))
      case DeleteTier => if r.passed < n then Some(Deleted1(r, ref)) else None
      case Sweep(j) => if j < n then Some(r.(store := Remove(r.store, j, ref), late := r.late - {j})) else None
  }

  function Run(tiers: seq<Tier>, r: Race, ref: Ref, es: seq<Event>): Option<Race> {
    if es == [] then Some(r)
    else
      match Run(tiers, r, ref, es[..|es| - 1])
      case None => None
      case Some(q) => Apply(tiers, q, ref, es[|es| - 1])
  }

  function Start(s: Store): Race {
    Race(s, map[], 0, {})
  }

  // ---- invariant ----

  predicate TierFits(tiers: seq<Tier>, r: Race, ref: Ref, e: Entry, j: nat)
    requires j < |tiers| == |r.store.backends|
  {
    && (ref in r.store.backends[j] ==> r.store.backends[j][ref] == e)
    && (j < r.passed ==> (ref in r.store.backends[j] <==> j in r.late))
  }

  predicate GetFits(e: Entry, g: Getter) {
    match g
    case Seeking(_) => true
    case Promoting(_, _, entry) => entry == e
    case Over(data) => data.Some? ==> data.value == e.data
  }

  ghost predicate Inv(tiers: seq<Tier>, r: Race, ref: Ref, e: Entry) {
    && 0 < |tiers| == |r.store.backends| == |r.store.refs| && r.passed <= |tiers|
    && (forall j :: 0 <= j < |tiers| ==> TierFits(tiers, r, ref, e, j))
    && (forall j :: j in r.late ==> j < r.passed)
    && (forall id :: id in r.gets ==> GetFits(e, r.gets[id]))
    && (ref in r.store.metas <==> r.passed < |tiers|)
    && (ref in r.store.metas ==> r.store.metas[ref] == e.meta)
  }

  lemma StartInv(tiers: seq<Tier>, s: Store, m: Contents, ref: Ref)
    requires tiers != [] && Represents(tiers, s, m) && ref in m
    ensures Inv(tiers, Start(s), ref, m[ref])
  {
    forall j | 0 <= j < |tiers|
      ensures TierFits(tiers, Start(s), ref, m[ref], j)
    {
      assert TierOk(tiers[j], s.backends[j], s.refs[j], m);
    }
  }

  lemma SeekKeeps(tiers: seq<Tier>, r: Race, ref: Ref, e: Entry, i: nat)
    requires Inv(tiers, r, ref, e)
    ensures GetFits(e, Sought(r.store, ref, i))
  {
    if i < |tiers| && ref in r.store.backends[i] {
      assert TierFits(tiers, r, ref, e, i);
    }
  }

  lemma PromoteKeeps(tiers: seq<Tier>, r: Race, ref: Ref, e: Entry, j: nat, fails: bool)
    requires Inv(tiers, r, ref, e) && j < |tiers|
    ensures Inv(tiers, Promoted1(tiers, r, ref, j, e, fails), ref, e)
  {
    var q := Promoted1(tiers, r, ref, j, e, fails);
    forall k | 0 <= k < |tiers|
      ensures TierFits(tiers, q, ref, e, k)
    {
      assert TierFits(tiers, r, ref, e, k);
    }
  }

  lemma DeleteKeeps(tiers: seq<Tier>, r: Race, ref: Ref, e: Entry)
    requires Inv(tiers, r, ref, e) && r.passed < |tiers|
    ensures Inv(tiers, Deleted1(r, ref), ref, e)
  {
    var q := Deleted1(r, ref);
    forall k | 0 <= k < |tiers|
      ensures TierFits(tiers, q, ref, e, k)
    {
      assert TierFits(tiers, r, ref, e, k);
    }
  }

  lemma SweepKeeps(tiers: seq<Tier>, r: Race, ref: Ref, e: Entry, j: nat)
    requires Inv(tiers, r, ref, e) && j < |tiers|
    ensures Inv(tiers, r.(store := Remove(r.store, j, ref), late := r.late - {j}), ref, e)
  {
    var q := r.(store := Remove(r.store, j, ref), late := r.late - {j});
    forall k | 0 <= k < |tiers|
      ensures TierFits(tiers, q, ref, e, k)
    {
      assert TierFits(tiers, r, ref, e, k);
    }
  }

  // Only the getters change.
  lemma GetsKeep(tiers: seq<Tier>, r: Race, ref: Ref, e: Entry, id: nat, g: Getter)
    requires Inv(tiers, r, ref, e) && GetFits(e, g)
    ensures Inv(tiers, r.(gets := r.gets[id := g]), ref, e)
  {
    var q := r.(gets := r.gets[id := g]);
    forall k | 0 <= k < |tiers|
      ensures TierFits(tiers, q, ref, e, k)
    {
      assert TierFits(tiers, r, ref, e, k);
    }
  }

  lemma BeginKeeps(tiers: seq<Tier>, r: Race, ref: Ref, e: Entry, now: Time)
    requires Inv(tiers, r, ref, e)
    ensures Inv(tiers, r.(store := r.store.(access := r.store.access[ref := now])), ref, e)
  {
    var q := r.(store := r.store.(access := r.store.access[ref := now]));
    forall k | 0 <= k < |tiers|
      ensures TierFits(tiers, q, ref, e, k)
    {
      assert TierFits(tiers, r, ref, e, k);
    }
  }

  lemma StepKeeps(tiers: seq<Tier>, r: Race, ref: Ref, e: Entry, event: Event)
    requires Inv(tiers, r, ref, e) && Apply(tiers, r, ref, event).Some?
    ensures Inv(tiers, Apply(tiers, r, ref, event).value, ref, e)
  {
    match event
    case BeginGet(id, now) =>
      BeginKeeps(tiers, r, ref, e, now);
      GetsKeep(tiers, r.(store := r.store.(access := r.store.access[ref := now])), ref, e, id, Seeking(0));
    case Seek(id) =>
      SeekKeeps(tiers, r, ref, e, r.gets[id].tier);
      GetsKeep(tiers, r, ref, e, id, Sought(r.store, ref, r.gets[id].tier));
    case Promote(id, fails) =>
      var g := r.gets[id];
      assert GetFits(e, g);
      if g.tier >= g.found || g.tier >= |tiers| {
        GetsKeep(tiers, r, ref, e, id, Over(Some(g.entry.data)));
      } else {
        PromoteKeeps(tiers, r, ref, e, g.tier, fails);
        GetsKeep(tiers, Promoted1(tiers, r, ref, g.tier, e, fails), ref, e, id, g.(tier := g.tier + 1));
      }
    case DeleteTier => DeleteKeeps(tiers, r, ref, e);
    case Sweep(j) => SweepKeeps(tiers, r, ref, e, j);
  }

  lemma {:induction false} RunKeeps(tiers: seq<Tier>, r: Race, ref: Ref, e: Entry, es: seq<Event>)
    requires Inv(tiers, r, ref, e) && Run(tiers, r, ref, es).Some?
    ensures Inv(tiers, Run(tiers, r, ref, es).value, ref, e)
  {
    if es == [] {
    } else {
      RunKeeps(tiers, r, ref, e, es[..|es| - 1]);
      StepKeeps(tiers, Run(tiers, r, ref, es[..|es| - 1]).value, ref, e, es[|es| - 1]);
    }
  }

  // ---- when the reference survives its deletion ----

  // Whatever gets and sweeps run while it is deleted: once the delete is through,
  // a tier holds the reference exactly if it was written after the delete passed
  // it and not swept since; so the store still finds it exactly if there is such
  // a tier, and then with its old bytes.
  lemma SurvivesIff(tiers: seq<Tier>, s: Store, m: Contents, ref: Ref, es: seq<Event>)
    requires tiers != [] && Represents(tiers, s, m) && ref in m
    requires Run(tiers, Start(s), ref, es).Some? && Run(tiers, Start(s), ref, es).value.passed == |tiers|
    ensures var r := Run(tiers, Start(s), ref, es).value;
      && |r.store.backends| == |tiers|
      && (forall j: nat :: j < |tiers| ==> (ref in r.store.backends[j] <==> j in r.late))
      && (Lookup(r.store, ref).Some? <==> r.late != {})
      && (r.late != {} ==> Lookup(r.store, ref) == Some(m[ref].data))
      && ref !in r.store.metas
  {
    StartInv(tiers, s, m, ref);
    RunKeeps(tiers, Start(s), ref, m[ref], es);
    var r := Run(tiers, Start(s), ref, es).value;
    forall j: nat | j < |tiers|
      ensures ref in r.store.backends[j] <==> j in r.late
    {
      assert TierFits(tiers, r, ref, m[ref], j);
    }
    var i := FirstTier(r.store.backends, ref);
    if i < |tiers| {
      assert TierFits(tiers, r, ref, m[ref], i);
    }
  }

  // Gets return the deleted bytes or KeyError, never anything else.
  lemma GetsAgree(tiers: seq<Tier>, s: Store, m: Contents, ref: Ref, es: seq<Event>, id: nat)
    requires tiers != [] && Represents(tiers, s, m) && ref in m && Run(tiers, Start(s), ref, es).Some?
    requires var r := Run(tiers, Start(s), ref, es).value; id in r.gets && r.gets[id].Over? && r.gets[id].data.Some?
    ensures Run(tiers, Start(s), ref, es).value.gets[id].data.value == m[ref].data
  {
    StartInv(tiers, s, m, ref);
    RunKeeps(tiers, Start(s), ref, m[ref], es);
    assert GetFits(m[ref], Run(tiers, Start(s), ref, es).value.gets[id]);
  }

  // ---- a get that is over before the delete is ----

  const TIER := Tier(true, NONE, 0, 0, 0)
  const TWO := [TIER, TIER]
  const E := Entry(Meta("a", "t", None, "none"), [7])
  const HOLDS: Contents := map["r" := E]

  // Two tiers, of which the first or the second or both hold the reference.
  function Holding(first: bool, second: bool, known: bool, gets: map<nat, Getter>, passed: nat, late: set<nat>): Race {
    Race(Store([if first then HOLDS else map[], if second then HOLDS else map[]],
               [if first then {"r"} else {}, if second then {"r"} else {}],
               if known then map["r" := 0] else map[], if known then map["r" := E.meta] else map[]),
         gets, passed, late)
  }

  ghost predicate Leads(r: Race, q: Race) {
    exists es :: Run(TWO, r, "r", es) == Some(q)
  }

  lemma Then(r: Race, p: Race, e: Event, q: Race)
    requires Leads(r, p) && Apply(TWO, p, "r", e) == Some(q)
    ensures Leads(r, q)
  {
    var es :| Run(TWO, r, "r", es) == Some(p);
    assert (es + [e])[..|es|] == es;
    assert Run(TWO, r, "r", es + [e]) == Some(q);
  }

  lemma FirstTierGoes(o: Race)
    requires o == Holding(true, true, true, map[], 0, {})
    ensures Leads(o, Holding(false, true, true, map[0 := Promoting(1, 0, E)], 1, {}))
  {
    assert Run(TWO, o, "r", []) == Some(o);
    var r1 := Holding(false, true, true, map[], 1, {});
    assert HOLDS - {"r"} == map[] && [HOLDS, HOLDS][0 := map[]] == [map[], HOLDS];
    assert {"r"} - {"r"} == {} && [{"r"}, {"r"}][0 := {}] == [{}, {"r"}];
    Then(o, o, DeleteTier, r1);
    var r2 := Holding(false, true, true, map[0 := Seeking(0)], 1, {});
    assert r1.store.access["r" := 0] == r1.store.access;
    Then(o, r1, BeginGet(0, 0), r2);
    var r3 := Holding(false, true, true, map[0 := Seeking(1)], 1, {});
    assert r2.gets[0 := Seeking(1)] == r3.gets;
    Then(o, r2, Seek(0), r3);
    assert r3.gets[0 := Promoting(1, 0, E)] == map[0 := Promoting(1, 0, E)];
    Then(o, r3, Seek(0), Holding(false, true, true, map[0 := Promoting(1, 0, E)], 1, {}));
  }

  lemma SecondTierGoes(o: Race)
    requires Leads(o, Holding(false, true, true, map[0 := Promoting(1, 0, E)], 1, {}))
    ensures Leads(o, Holding(true, false, false, map[0 := Over(Some([7]))], 2, {0}))
  {
    var r1 := Holding(false, true, true, map[0 := Promoting(1, 0, E)], 1, {});
    var r2 := Holding(true, true, true, map[0 := Promoting(1, 1, E)], 1, {0});
    assert [map[], HOLDS][0 := HOLDS] == [HOLDS, HOLDS] && Insert(map[], "r", E) == HOLDS;
    assert {} + {"r"} == {"r"} && [{}, {"r"}][0 := {"r"}] == [{"r"}, {"r"}];
    assert r1.gets[0 := Promoting(1, 1, E)] == r2.gets && {} + {0} == {0};
    Then(o, r1, Promote(0, false), r2);
    var r3 := Holding(true, true, true, map[0 := Over(Some([7]))], 1, {0});
    assert r2.gets[0 := Over(Some([7]))] == r3.gets;
    Then(o, r2, Promote(0, false), r3);
    assert HOLDS - {"r"} == map[] && [HOLDS, HOLDS][1 := map[]] == [HOLDS, map[]];
    assert {"r"} - {"r"} == {} && [{"r"}, {"r"}][1 := {}] == [{"r"}, {}];
    assert r3.store.access - {"r"} == map[] && r3.store.metas - {"r"} == map[];
    Then(o, r3, DeleteTier, Holding(true, false, false, map[0 := Over(Some([7]))], 2, {0}));
  }

  // With every promotion written before the delete is through, the reference is
  // back all the same.
  lemma RevivedInside() returns (s: Store, r: Race)
    ensures Represents(TWO, s, HOLDS) && Leads(Start(s), r)
    ensures r.passed == |TWO| && (forall id :: id in r.gets ==> r.gets[id].Over?)
    ensures Lookup(r.store, "r") == Some([7])
  {
    s := Holding(true, true, true, map[], 0, {}).store;
    FirstTierGoes(Start(s));
    SecondTierGoes(Start(s));
    r := Holding(true, false, false, map[0 := Over(Some([7]))], 2, {0});
  }
}
