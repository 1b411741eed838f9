// Actor names joined into one string: by the router's key and by the key under
// which concurrent resumes share a flight.
module Names {
  import opened Model

  function Joined(ref: ActorRef, sep: char): string {
    ref.namespace + [sep] + ref.actorId
  }

  // One namespace continues another after a separator.
  predicate Nested(outer: string, inner: string, sep: char) {
    outer + [sep] <= inner
  }

  ghost predicate NoneNested(namespaces: iset<string>, sep: char) {
    forall outer, inner :: outer in namespaces && inner in namespaces ==> !Nested(outer, inner, sep)
  }

  ghost predicate Unambiguous(namespaces: iset<string>, sep: char) {
    forall r1: ActorRef, r2: ActorRef ::
      r1.namespace in namespaces && r2.namespace in namespaces && Joined(r1, sep) == Joined(r2, sep) ==> r1 == r2
  }

  // Of two namespaces behind one name, the longer continues the shorter.
  lemma LongerNests(r1: ActorRef, r2: ActorRef, sep: char)
    requires Joined(r1, sep) == Joined(r2, sep) && |r1.namespace| < |r2.namespace|
    ensures Nested(r1.namespace, r2.namespace, sep)
  {
    var n1, n2, key := r1.namespace, r2.namespace, Joined(r1, sep);
    assert n1 + [sep] == key[..|n1| + 1];
    assert n2 == key[..|n2|];
  }

  lemma NameDecides(r1: ActorRef, r2: ActorRef, sep: char)
    requires Joined(r1, sep) == Joined(r2, sep)
    requires !Nested(r1.namespace, r2.namespace, sep) && !Nested(r2.namespace, r1.namespace, sep)
    ensures r1 == r2
  {
    if |r1.namespace| < |r2.namespace| {
      LongerNests(r1, r2, sep);
    }
    if |r2.namespace| < |r1.namespace| {
      LongerNests(r2, r1, sep);
    }
    var n := |r1.namespace|;
    assert Joined(r1, sep)[..n] == r1.namespace && Joined(r1, sep)[n + 1..] == r1.actorId;
    assert Joined(r2, sep)[..n] == r2.namespace && Joined(r2, sep)[n + 1..] == r2.actorId;
  }

  // Two actors of nested namespaces that share a name.
  lemma NestedCollide(outer: string, inner: string, sep: char)
    requires Nested(outer, inner, sep)
    ensures exists r1: ActorRef, r2: ActorRef ::
      r1.namespace == outer && r2.namespace == inner && r1 != r2 && Joined(r1, sep) == Joined(r2, sep)
  {
    var rest := inner[|outer| + 1..];
    var r1, r2 := ActorRef(outer, rest + [sep] + "x"), ActorRef(inner, "x");
    assert inner == outer + [sep] + rest;
    assert Joined(r1, sep) == outer + [sep] + (rest + [sep] + "x");
    assert Joined(r2, sep) == outer + [sep] + rest + [sep] + "x";
  }

  // Names tell the actors of a set of namespaces apart exactly when no namespace
  // of the set is nested in another.
  lemma UnambiguousIff(namespaces: iset<string>, sep: char)
    ensures Unambiguous(namespaces, sep) <==> NoneNested(namespaces, sep)
  {
    if Unambiguous(namespaces, sep) {
      forall outer, inner | outer in namespaces && inner in namespaces
        ensures !Nested(outer, inner, sep)
      {
        if Nested(outer, inner, sep) {
          NestedCollide(outer, inner, sep);
        }
      }
    }
    if NoneNested(namespaces, sep) {
      forall r1: ActorRef, r2: ActorRef
        | r1.namespace in namespaces && r2.namespace in namespaces && Joined(r1, sep) == Joined(r2, sep)
        ensures r1 == r2
      {
        NameDecides(r1, r2, sep);
      }
    }
  }
}
