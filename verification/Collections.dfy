// Facts about sequences, sets and maps that Dafny does not know by itself.
module Collections {

  predicate NoDup<T(==)>(xs: seq<T>) {
    forall i, j :: 0 <= i < j < |xs| ==> xs[i] != xs[j]
  }

  function SetOf<T>(xs: seq<T>): (s: set<T>) {
    set x | x in xs
  }

  lemma {:induction false} NoDupCardinality<T>(xs: seq<T>)
    requires NoDup(xs)
    ensures |SetOf(xs)| == |xs|
  {
    if xs == [] {
      assert SetOf(xs) == {};
    } else {
      var front, last := xs[..|xs| - 1], xs[|xs| - 1];
      NoDupCardinality(front);
      assert xs == front + [last];
      assert SetOf(xs) == SetOf(front) + {last};
    }
  }

  lemma NoDupConcat<T>(xs: seq<T>, ys: seq<T>)
    requires NoDup(xs) && NoDup(ys) && (forall y :: y in ys ==> y !in xs)
    ensures NoDup(xs + ys) && SetOf(xs + ys) == SetOf(xs) + SetOf(ys)
  {
    forall i, j | 0 <= i < j < |xs + ys|
      ensures (xs + ys)[i] != (xs + ys)[j]
    {
      if i < |xs| <= j {
        assert xs[i] in xs && ys[j - |xs|] in ys;
      }
    }
  }

  lemma {:induction false} SubsetCardinality<T>(a: set<T>, b: set<T>)
    requires a <= b
    ensures |a| <= |b|
    decreases b
  {
    if x :| x in a {
      SubsetCardinality(a - {x}, b - {x});
    }
  }

  // An injective function cannot map a set into a smaller one.
  lemma {:induction false} InjectionCardinality<S, T>(dom: set<S>, cod: set<T>, f: map<S, T>)
    requires dom <= f.Keys
    requires forall x :: x in dom ==> f[x] in cod
    requires forall x, y :: x in dom && y in dom && f[x] == f[y] ==> x == y
    ensures |dom| <= |cod|
    decreases dom
  {
    if x :| x in dom {
      InjectionCardinality(dom - {x}, cod - {f[x]}, f);
    }
  }
}
