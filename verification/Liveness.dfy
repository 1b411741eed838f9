// No reachable state is a dead end for an actor: with a worker or room in the
// pool it can be resumed, and once running it can be stopped.
module Liveness {
  import opened Wrappers
  import opened Model
  import opened Stores
  import opened WorkerPoolModel
  import opened OrchestratorModel
  import opened T = OrchestratorTheorems
  import G = Progress
  import H = WorkerSafety
  import P = PoolModel

  lemma Onward(c: Config, s: Sys, q: Sys)
    requires Reachable(c, s) && G.Leads(c, s, q)
    ensures Reachable(c, q)
  {
    var es :| Run(c, s, es) == Some(q);
    ReachableRun(c, s, es);
  }

  // A detached actor whose template is known and which nobody is resuming.
  predicate Resumable(s: Sys, id: TaskId, ref: ActorRef) {
    && ref in s.actors && Detached(s.actors[ref].status) && s.actors[ref].templateId in s.catalog.templates
    && id !in s.tasks && !HasLeader(s, ref)
  }

  // The actor runs on w, is routed there, and has its saved tree back.
  predicate BackOn(q: Sys, ref: ActorRef, w: WorkerId) {
    && Placed(q, ref) && WorkerOf(q, ref) == w
    && ref in q.bindings && q.actors[ref].assignment == Some(q.bindings[ref])
    && (q.actors[ref].snapshot.Some? ==> T.Restored(q, ref))
  }

  lemma ResumableKnown(c: Config, s: Sys, id: TaskId, ref: ActorRef)
    requires P.ValidConfig(c.pool) && Reachable(c, s) && Resumable(s, id, ref)
    ensures G.CanResume(s, ref)
    ensures var a := s.actors[ref]; a.snapshot.Some? ==>
      a.snapshot.value in s.disk.snapshots && ref in s.disk.saved
      && s.disk.saved[ref] == s.disk.snapshots[a.snapshot.value]
  {
    RecordsFit(c, s, ref);
    if s.actors[ref].snapshot.Some? {
      LastSaveIsStored(c, s, ref);
    }
  }

  predicate OthersKept(s: Sys, q: Sys, ref: ActorRef) {
    forall r :: r != ref && r in s.actors ==> r in q.actors && q.actors[r] == s.actors[r]
  }

  // The end of a resume from its claim on, as seen by clients.
  lemma UpIsBack(c: Config, s: Sys, id: TaskId, ref: ActorRef, w: WorkerId, at: Time, q: Sys)
    requires ref in s.actors && G.CanClaim(s, w) && q == End(G.CameUp(s, ref, w, at), id, ref)
    requires P.ValidConfig(c.pool) && Reachable(c, q)
    requires var a := s.actors[ref]; a.snapshot.Some? ==>
      a.snapshot.value in s.disk.snapshots && ref in s.disk.saved
      && s.disk.saved[ref] == s.disk.snapshots[a.snapshot.value]
    ensures BackOn(q, ref, w) && w in q.reg.workers && q.reg.workers[w].sandbox == s.reg.workers[w].sandbox
    ensures OthersKept(s, q, ref)
  {
    RunningIsPlaced(c, q, ref);
  }

  lemma WorkersFit(c: Config, s: Sys, w: WorkerId)
    requires P.ValidConfig(c.pool) && Reachable(c, s) && w in s.reg.workers
    ensures s.reg.workers[w].workerId == w
  {
    AlwaysInv(c, s);
    assert H.WorkerOk(s.reg, w, s.reg.workers[w]);
  }

  // An idle worker that fits is enough to bring the actor up on it.
  lemma ResumesOnIdle(c: Config, s: Sys, id: TaskId, ref: ActorRef, w: WorkerId, at: Time) returns (q: Sys)
    requires P.ValidConfig(c.pool) && Reachable(c, s) && Resumable(s, id, ref)
    requires Eligible(s.reg.workers, ConstraintsFor(s.catalog.templates[s.actors[ref].templateId], s.actors[ref]), w)
    ensures G.Leads(c, s, q) && Reachable(c, q) && BackOn(q, ref, w)
    ensures OthersKept(s, q, ref)
  {
    WorkersFit(c, s, w);
    ResumableKnown(c, s, id, ref);
    G.Stays(c, s);
    G.ResumesOn(c, s, s, id, ref, w, at);
    q := End(G.ResumedOn(s, ref, w, at), id, ref);
    Onward(c, s, q);
    PoppedIsThere(G.Flipped(s, ref, at), w);
    UpIsBack(c, G.Popped(G.Flipped(s, ref, at), w), id, ref, w, at, q);
  }

  lemma PoppedIsThere(s: Sys, w: WorkerId)
    requires G.CanClaim(s, w)
    ensures var q := G.Popped(s, w); G.CanClaim(q, w) && q.actors == s.actors && q.disk == s.disk
  {
  }

  lemma FreshIsThere(c: Config, s: Sys, w: WorkerId, sb: P.Sandbox)
    ensures var q := G.Registered(c, s, w, sb);
      && G.CanClaim(q, w) && q.reg.workers[w].sandbox == Some(sb)
      && q.actors == s.actors && q.disk == s.disk
  {
  }

  // So is room in the sandbox pool, if no idle worker fits.
  lemma ResumesOnFresh(c: Config, s: Sys, id: TaskId, ref: ActorRef, sb: P.Sandbox, w: WorkerId, at: Time)
      returns (q: Sys)
    requires P.ValidConfig(c.pool) && Reachable(c, s) && Resumable(s, id, ref)
    requires G.NoneEligible(s, s.catalog.templates[s.actors[ref].templateId], ref)
    requires G.HasRoom(c, s.reg.pool, id, sb) && w !in s.reg.usedIds
    ensures G.Leads(c, s, q) && Reachable(c, q) && BackOn(q, ref, w) && q.reg.workers[w].sandbox == Some(sb)
    ensures OthersKept(s, q, ref)
  {
    ResumableKnown(c, s, id, ref);
    G.Stays(c, s);
    G.ResumesFresh(c, s, s, id, ref, sb, w, at);
    q := End(G.ResumedFresh(c, s, ref, sb, w, at), id, ref);
    Onward(c, s, q);
    var f := G.Flipped(s, ref, at);
    FreshIsThere(c, f, w, sb);
    UpIsBack(c, G.Registered(c, f, w, sb), id, ref, w, at, q);
  }

  // A running actor can be stopped; what its sandbox held is then its saved tree.
  lemma RunningStops(c: Config, s: Sys, id: TaskId, ref: ActorRef, k: Kind, snap: SnapshotRef, at: Time)
      returns (q: Sys)
    requires P.ValidConfig(c.pool) && Reachable(c, s) && Running(s, ref) && id !in s.tasks
    requires s.actors[ref].templateId in s.catalog.templates && snap !in s.disk.snapshots
    ensures G.Leads(c, s, q) && Reachable(c, q) && Placed(s, ref)
    ensures ref in q.actors && q.actors[ref].status == StopFinal(k) && ref !in q.bindings
    ensures q.actors[ref].snapshot == Some(snap) && ref in q.disk.saved
    ensures q.disk.saved[ref] == TreeOf(s.disk, s.reg.workers[WorkerOf(s, ref)])
  {
    RunningIsPlaced(c, s, ref);
    RecordsFit(c, s, ref);
    var w := WorkerOf(s, ref);
    WorkersFit(c, s, w);
    G.Stays(c, s);
    G.GoesDown(c, s, s, id, ref, k, s.reg.workers[w], snap, at);
    q := End(G.WentDown(c, s, ref, k, s.reg.workers[w], snap, at), id, ref);
    Onward(c, s, q);
    var u := G.Unbound(G.Saved(G.FlippedDown(s, ref, k, at), s.reg.workers[w], snap), ref);
    G.GivenBackKeeps(c, u, s.reg.workers[w]);
  }
}
