// The in-memory router of router.py, keyed by the actor's name as a string.
module Routers {
  import opened Wrappers
  import opened Model
  import opened Names

  // str(ActorRef)
  function Key(ref: ActorRef): string {
    Joined(ref, '/')
  }

  class InMemoryRouter {
    var bindings: map<string, Assignment>
    // What the strings stand for: assignments by actor, of these namespaces.
    ghost var table: map<ActorRef, Assignment>
    ghost const namespaces: iset<string>

    ghost predicate Valid()
      reads this
    {
      Unambiguous(namespaces, '/') && Refines(bindings, table, namespaces)
    }

    constructor (ghost ns: iset<string>)
      requires NoneNested(ns, '/')
      ensures Valid() && table == map[] && namespaces == ns
    {
      bindings, table, namespaces := map[], map[], ns;
      new;
      UnambiguousIff(ns, '/');
    }

    method Resolve(ref: ActorRef) returns (r: Option<Assignment>)
      requires Valid() && ref.namespace in namespaces
      ensures r == if ref in table then Some(table[ref]) else None
    {
      if Key(ref) in bindings {
        return Some(bindings[Key(ref)]);
      }
      return None;
    }

    // No other actor's binding changes.
    method Bind(ref: ActorRef, assignment: Assignment)
      requires Valid() && ref.namespace in namespaces
      modifies this
      ensures Valid() && table == old(table)[ref := assignment]
    {
      BindRefines(bindings, table, namespaces, ref, assignment);
      bindings := bindings[Key(ref) := assignment];
      table := table[ref := assignment];
    }

    method Unbind(ref: ActorRef)
      requires Valid() && ref.namespace in namespaces
      modifies this
      ensures Valid() && table == old(table) - {ref}
    {
      UnbindRefines(bindings, table, namespaces, ref);
      bindings := bindings - {Key(ref)};
      table := table - {ref};
    }
  }

  // ---- the string table refines a table keyed by actor ----

  ghost predicate Refines(strings: map<string, Assignment>, table: map<ActorRef, Assignment>,
                          namespaces: iset<string>) {
    forall ref: ActorRef :: ref.namespace in namespaces ==>
      (Key(ref) in strings <==> ref in table) && (ref in table ==> strings[Key(ref)] == table[ref])
  }

  lemma BindRefines(strings: map<string, Assignment>, table: map<ActorRef, Assignment>, namespaces: iset<string>,
                    ref: ActorRef, a: Assignment)
    requires Unambiguous(namespaces, '/') && Refines(strings, table, namespaces) && ref.namespace in namespaces
    ensures Refines(strings[Key(ref) := a], table[ref := a], namespaces)
  {
    forall r: ActorRef | r.namespace in namespaces
      ensures Key(r) == Key(ref) <==> r == ref
    {
    }
  }

  lemma UnbindRefines(strings: map<string, Assignment>, table: map<ActorRef, Assignment>, namespaces: iset<string>,
                      ref: ActorRef)
    requires Unambiguous(namespaces, '/') && Refines(strings, table, namespaces) && ref.namespace in namespaces
    ensures Refines(strings - {Key(ref)}, table - {ref}, namespaces)
  {
    forall r: ActorRef | r.namespace in namespaces
      ensures Key(r) == Key(ref) <==> r == ref
    {
    }
  }

  ghost predicate BindSafe(strings: map<string, Assignment>, table: map<ActorRef, Assignment>,
                           namespaces: iset<string>, ref: ActorRef, a: Assignment) {
    Refines(strings, table, namespaces) && ref.namespace in namespaces ==>
      Refines(strings[Key(ref) := a], table[ref := a], namespaces)
  }

  // A bind routes nobody else, exactly if no namespace is nested in another.
  lemma BindRefinesIff(namespaces: iset<string>)
    ensures (forall strings, table, ref, a :: BindSafe(strings, table, namespaces, ref, a))
      <==> NoneNested(namespaces, '/')
  {
    UnambiguousIff(namespaces, '/');
    if NoneNested(namespaces, '/') {
      forall strings, table, ref, a
        ensures BindSafe(strings, table, namespaces, ref, a)
      {
        if Refines(strings, table, namespaces) && ref.namespace in namespaces {
          BindRefines(strings, table, namespaces, ref, a);
        }
      }
    } else {
      var r1: ActorRef, r2: ActorRef :|
        r1.namespace in namespaces && r2.namespace in namespaces && Joined(r1, '/') == Joined(r2, '/') && r1 != r2;
      var a := Assignment("", 0, VFS, None, 0);
      var none: map<ActorRef, Assignment> := map[];
      assert Refines(map[], none, namespaces);
      assert !BindSafe(map[], none, namespaces, r1, a) by {
        assert Key(r2) == Key(r1) && r2 !in none[r1 := a];
      }
    }
  }
}
