// Concurrent resumes share a flight under "resume:{namespace}:{actor_id}"
// (orchestrator.py).  So one resume of an actor leads at a time.
module ResumeKeys {
  import opened Wrappers
  import opened Model
  import opened Names
  import F = SingleflightModel

  function ResumeKey(ref: ActorRef): string {
    "resume:" + Joined(ref, ':')
  }

  lemma SameKeyIff(r1: ActorRef, r2: ActorRef)
    ensures ResumeKey(r1) == ResumeKey(r2) <==> Joined(r1, ':') == Joined(r2, ':')
  {
    assert forall r: ActorRef :: ResumeKey(r)[7..] == Joined(r, ':');
  }

  // Of the flights that have not ended, no two resume one actor, and none
  // resumes two.
  lemma OneLeaderPerActor(s: F.State, f: F.FlightId, g: F.FlightId, r1: ActorRef, r2: ActorRef,
                          namespaces: iset<string>)
    requires F.Reachable(s) && f < |s.flights| && g < |s.flights|
    requires !s.flights[f].phase.Done? && !s.flights[g].phase.Done?
    requires s.flights[f].key == ResumeKey(r1) && s.flights[g].key == ResumeKey(r2)
    requires NoneNested(namespaces, ':') && r1.namespace in namespaces && r2.namespace in namespaces
    ensures f == g <==> r1 == r2
  {
    UnambiguousIff(namespaces, ':');
    SameKeyIff(r1, r2);
    if r1 == r2 {
      F.OneFnPerKey(s, f, g);
    }
  }

  // Behind nested namespaces one actor's resume is answered by another's: the
  // second call joins the flight of the first.
  lemma NestedShareFlights(outer: string, inner: string) returns (r1: ActorRef, r2: ActorRef, s: F.State)
    requires Nested(outer, inner, ':')
    ensures r1.namespace == outer && r2.namespace == inner && r1 != r2
    ensures F.Reachable(s) && |s.flights| == 1 && s.flights[0].key == ResumeKey(r1)
    ensures s.callers == map[0 := F.Leading(0), 1 := F.Joining(0, None)]
  {
    NestedCollide(outer, inner, ':');
    r1, r2 :| r1.namespace == outer && r2.namespace == inner && r1 != r2 && Joined(r1, ':') == Joined(r2, ':');
    SameKeyIff(r1, r2);
    var first := F.Call(0, ResumeKey(r1), None, 0);
    var second := F.Call(1, ResumeKey(r2), None, 0);
    assert F.Run(F.Init(0), []) == Some(F.Init(0));
    var q := F.Apply(F.Init(0), first).value;
    F.Onward(F.Init(0), first, q);
    s := F.Apply(q, second).value;
    F.Onward(q, second, s);
  }
}
