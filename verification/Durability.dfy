// The orchestrator over the tiered store as its durable store.  The model of
// the orchestrator has a store that never loses a snapshot; a tiered store with
// a tier that is written through and never evicts is one.
module Durability {
  import opened Wrappers
  import opened Model
  import opened WorkerPoolModel
  import opened O = OrchestratorModel
  import T = OrchestratorTheorems
  import D = TieredModel
  import P = PoolModel

  // How trees become bytes, and snapshots references of the store.
  datatype Format = Format(name: SnapshotRef -> D.Ref, pack: Tree -> D.Bytes, meta: D.Meta)

  ghost predicate Injective(f: Format) {
    forall x, y :: f.name(x) == f.name(y) ==> x == y
  }

  // plain: what was put and not deleted (history).
  datatype Joint = Joint(sys: Sys, store: D.Store, plain: D.Contents)

  datatype Event = Orchestrate(event: O.Event, now: D.Time) | Serve(call: D.Event)

  // The snapshot that the event stores.
  function Stored(s: Sys, e: O.Event, q: Sys): Option<SnapshotRef> {
    if e.Advance? && e.choice.snapshot !in s.disk.snapshots && e.choice.snapshot in q.disk.snapshots
    then Some(e.choice.snapshot) else None
  }

  // Other users of the store, and its sweeper, leave the snapshots' names alone.
  ghost predicate Foreign(f: Format, e: D.Event) {
    match e
    case Put(ref, _, _) => forall x :: f.name(x) != ref
    case Copy(_, target, _, _, _, _) => forall x :: f.name(x) != target
    case Delete(ref) => forall x :: f.name(x) != ref
    case _ => true
  }

  ghost function Call(tiers: seq<D.Tier>, j: Joint, e: D.Event): Option<Joint> {
    match D.Apply(tiers, j.store, e)
    case None => None
    case Some(store) => Some(j.(store := store, plain := D.Plain(j.plain, e)))
  }

  ghost function Apply(c: Config, f: Format, tiers: seq<D.Tier>, j: Joint, e: Event): Option<Joint> {
    match e
    case Serve(call) => if Foreign(f, call) then Call(tiers, j, call) else None
    case Orchestrate(event, now) =>
      match O.Apply(c, j.sys, event)
      case None => None
      case Some(q) =>
        match Stored(j.sys, event, q)
        case None => Some(j.(sys := q))
        case Some(snap) =>
          var entry := D.Entry(f.meta, f.pack(q.disk.snapshots[snap]));
          Call(tiers, j.(sys := q), D.Put(f.name(snap), entry, now))
  }

  ghost function Run(c: Config, f: Format, tiers: seq<D.Tier>, j: Joint, es: seq<Event>): Option<Joint> {
    if es == [] then Some(j)
    else
      match Run(c, f, tiers, j, es[..|es| - 1])
      case None => None
      case Some(q) => Apply(c, f, tiers, q, es[|es| - 1])
  }

  function Init(tiers: seq<D.Tier>, golden: map<string, SnapshotRef>, now: Time): Joint {
    Joint(O.Init(golden, now), D.Empty(tiers), map[])
  }

  // ---- an event stores its chosen snapshot or none ----

  predicate AddsChosen(s: Sys, ch: Choice, q: Sys) {
    || q.disk.snapshots == s.disk.snapshots
    || (ch.snapshot !in s.disk.snapshots && ch.snapshot in q.disk.snapshots
        && q.disk.snapshots == s.disk.snapshots[ch.snapshot := q.disk.snapshots[ch.snapshot]])
  }

  lemma ClaimingAdds(c: Config, s: Sys, id: TaskId, ref: ActorRef, tm: Template, a: Actor, n: nat, st: ClaimStage,
                     ch: Choice)
    ensures var q := StepClaiming(c, s, id, ref, tm, a, n, st, ch); q.Some? ==> q.value.disk == s.disk
  {
  }

  lemma SetupAdds(s: Sys, id: TaskId, ref: ActorRef, tm: Template, a: Actor, w: Worker, st: SetupStage, ch: Choice)
    ensures var q := StepSetup(s, id, ref, tm, a, w, st, ch); q.Some? ==> AddsChosen(s, ch, q.value)
  {
  }

  lemma ResumeAdds(c: Config, s: Sys, id: TaskId, ref: ActorRef, st: ResumeStage, ch: Choice)
    ensures var q := StepResume(c, s, id, ref, st, ch); q.Some? ==> AddsChosen(s, ch, q.value)
  {
    match st
    case Claiming(tm, a, n, claim) => ClaimingAdds(c, s, id, ref, tm, a, n, claim, ch);
    case Setup(tm, a, w, setup) => SetupAdds(s, id, ref, tm, a, w, setup, ch);
    case _ =>
  }

  lemma StopAdds(c: Config, s: Sys, id: TaskId, ref: ActorRef, k: Kind, st: StopStage, ch: Choice)
    ensures var q := StepStop(c, s, id, ref, k, st, ch); q.Some? ==> AddsChosen(s, ch, q.value)
  {
  }

  lemma EventAdds(c: Config, s: Sys, e: O.Event)
    requires O.Apply(c, s, e).Some?
    ensures var q := O.Apply(c, s, e).value;
      if e.Advance? then AddsChosen(s, e.choice, q) else q.disk.snapshots == s.disk.snapshots
  {
    if e.Advance? {
      match s.tasks[e.id]
      case Resume(ref, st) => ResumeAdds(c, s, e.id, ref, st, e.choice);
      case Stop(ref, k, st) => StopAdds(c, s, e.id, ref, k, st, e.choice);
      case _ =>
    }
  }

  // ---- every snapshot of the orchestrator is in the store ----

  predicate Kept(f: Format, j: Joint, snap: SnapshotRef)
    requires snap in j.sys.disk.snapshots
  {
    f.name(snap) in j.plain && j.plain[f.name(snap)].data == f.pack(j.sys.disk.snapshots[snap])
  }

  ghost predicate Inv(c: Config, f: Format, tiers: seq<D.Tier>, j: Joint) {
    && T.Reachable(c, j.sys) && D.Represents(tiers, j.store, j.plain)
    && forall snap :: snap in j.sys.disk.snapshots ==> Kept(f, j, snap)
  }

  lemma ServeKeeps(c: Config, f: Format, tiers: seq<D.Tier>, j: Joint, e: D.Event, q: Joint)
    requires D.HasDurable(tiers) && Inv(c, f, tiers, j) && Foreign(f, e) && Call(tiers, j, e) == Some(q)
    ensures Inv(c, f, tiers, q)
  {
    D.StepRefines(tiers, j.store, j.plain, e);
    forall snap | snap in q.sys.disk.snapshots
      ensures Kept(f, q, snap)
    {
      assert Kept(f, j, snap);
    }
  }

  lemma OrchestrateKeeps(c: Config, f: Format, tiers: seq<D.Tier>, j: Joint, e: O.Event, now: D.Time, q: Joint)
    requires D.HasDurable(tiers) && Injective(f) && Inv(c, f, tiers, j)
    requires Apply(c, f, tiers, j, Orchestrate(e, now)) == Some(q)
    ensures Inv(c, f, tiers, q)
  {
    T.ReachableStep(c, j.sys, e, q.sys);
    EventAdds(c, j.sys, e);
    var taken := Stored(j.sys, e, q.sys);
    if taken.Some? {
      var entry := D.Entry(f.meta, f.pack(q.sys.disk.snapshots[taken.value]));
      D.StepRefines(tiers, j.store, j.plain, D.Put(f.name(taken.value), entry, now));
    }
    forall snap | snap in q.sys.disk.snapshots
      ensures Kept(f, q, snap)
    {
      assert snap in j.sys.disk.snapshots ==> Kept(f, j, snap);
    }
  }

  lemma {:induction false} RunKeeps(c: Config, f: Format, tiers: seq<D.Tier>, j: Joint, es: seq<Event>)
    requires D.HasDurable(tiers) && Injective(f) && Inv(c, f, tiers, j) && Run(c, f, tiers, j, es).Some?
    ensures Inv(c, f, tiers, Run(c, f, tiers, j, es).value)
  {
    if es == [] {
    } else {
      var front, e := es[..|es| - 1], es[|es| - 1];
      RunKeeps(c, f, tiers, j, front);
      var p, q := Run(c, f, tiers, j, front).value, Run(c, f, tiers, j, es).value;
      match e
      case Serve(call) => ServeKeeps(c, f, tiers, p, call, q);
      case Orchestrate(event, now) => OrchestrateKeeps(c, f, tiers, p, event, now, q);
    }
  }

  lemma InitInv(c: Config, f: Format, tiers: seq<D.Tier>, golden: map<string, SnapshotRef>, now: Time)
    ensures Inv(c, f, tiers, Init(tiers, golden, now))
  {
    assert O.Run(c, O.Init(golden, now), []) == Some(O.Init(golden, now));
  }

  // Over any run of the orchestrator, of other users of the store and of its
  // sweeper: the store still has every snapshot taken, and under the one that
  // an actor's record names, the tree of its last committed suspend or pause.
  lemma SnapshotsSurvive(c: Config, f: Format, tiers: seq<D.Tier>, golden: map<string, SnapshotRef>, now: Time,
                         es: seq<Event>, ref: ActorRef)
    requires P.ValidConfig(c.pool) && D.HasDurable(tiers) && Injective(f)
    requires Run(c, f, tiers, Init(tiers, golden, now), es).Some?
    ensures var j := Run(c, f, tiers, Init(tiers, golden, now), es).value;
      && T.Reachable(c, j.sys)
      && (forall snap :: snap in j.sys.disk.snapshots ==>
            D.Lookup(j.store, f.name(snap)) == Some(f.pack(j.sys.disk.snapshots[snap])))
      && (ref in j.sys.actors && j.sys.actors[ref].snapshot.Some? ==>
            && ref in j.sys.disk.saved
            && D.Lookup(j.store, f.name(j.sys.actors[ref].snapshot.value)) == Some(f.pack(j.sys.disk.saved[ref])))
  {
    InitInv(c, f, tiers, golden, now);
    RunKeeps(c, f, tiers, Init(tiers, golden, now), es);
    var j := Run(c, f, tiers, Init(tiers, golden, now), es).value;
    forall snap | snap in j.sys.disk.snapshots
      ensures D.Lookup(j.store, f.name(snap)) == Some(f.pack(j.sys.disk.snapshots[snap]))
    {
      assert Kept(f, j, snap);
      D.LookupAgrees(tiers, j.store, j.plain, f.name(snap));
    }
    if ref in j.sys.actors && j.sys.actors[ref].snapshot.Some? {
      T.LastSaveIsStored(c, j.sys, ref);
    }
  }
}
