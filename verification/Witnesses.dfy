// Runs of the orchestrator that show which promises of its documentation fail,
// and that the losing branches of its protocol are taken.
module Witnesses {
  import opened Wrappers
  import opened Model
  import opened Stores
  import opened WorkerPoolModel
  import opened OrchestratorModel
  import opened WorkerSafety
  import opened OrchestratorTheorems
  import opened Orphans
  import L = Locality
  import G = Progress
  import P = PoolModel

  // n sandboxes on node x, no health check, one warm worker.
  function C(n: nat): Config {
    Config(P.Config(n, 0, 0, false, false, 0), 1, 0, map[], Some("x"))
  }

  const REF := ActorRef("n", "a")
  const OTHER := ActorRef("n", "b")
  const TM := Template("t", VFS)
  const ASG := Assignment("a", 5, VFS, Some("x"), 0)
  const HELD := Worker(5, ACTIVE, VFS, 2, Some(ASG), map[], Some("x"), Some(7))
  const IDLE := Worker(5, ACTIVE, VFS, 3, None, map[], Some("x"), Some(7))
  const EMPTY := Disk(map[], map[], map[])

  function Record(st: ActorStatus, version: nat, asg: Option<Assignment>, snap: Option<SnapshotRef>,
                  sel: Labels): Actor {
    Actor("a", "n", "t", st, version, asg, snap, sel, 0, 0)
  }

  function At(a: Actor, tasks: map<TaskId, Task>, bindings: map<ActorRef, Assignment>, reg: Registry, d: Disk): Sys {
    Sys(map[REF := a], tasks, bindings, reg, d, Catalog(map["t" := TM], map[]))
  }

  // One sandbox, 7, handed out.
  function Lent(): P.Pool {
    P.Pool(P.Core([], {7}, 0), map[], map[7 := OWNER], [], {7}, 0)
  }

  function New(sel: Labels): Sys {
    At(Record(SUSPENDED, 1, None, None, sel), map[], map[], Registry(map[], {}, map[], P.Init(0)), EMPTY)
  }

  // The actor runs on worker 5.
  function Serving(sel: Labels): Sys {
    At(Record(RUNNING, 3, Some(ASG), None, sel), map[0 := Ended(REF)], map[REF := ASG],
       Registry(map[5 := HELD], {5}, map[], Lent()), EMPTY)
  }

  // It has paused, and worker 5 is idle.
  function Resting(sel: Labels): Sys {
    At(Record(PAUSED, 5, None, Some(0), sel), map[0 := Ended(REF), 1 := Ended(REF)], map[],
       Registry(map[5 := IDLE], {5}, map[5 := 0], Lent()), Disk(map[0 := map[]], map[], map[REF := map[]]))
  }

  // ---- an actor is created, resumed and paused ----

  lemma Created(c: Config, sel: Labels)
    ensures G.Leads(c, Init(map[], 0), New(sel))
  {
    var o := Init(map[], 0);
    G.Stays(c, o);
    var s := Apply(c, o, RegisterTemplate(TM)).value;
    G.Then(c, o, o, RegisterTemplate(TM), s);
    G.Then(c, o, s, Create(REF, "t", sel, 0), New(sel));
  }

  lemma FirstResume(n: nat, sel: Labels)
    ensures End(G.ResumedFresh(C(n), New(sel), REF, 7, 5, 0), 0, REF) == Serving(sel)
  {
    var q, e := End(G.ResumedFresh(C(n), New(sel), REF, 7, 5, 0), 0, REF), Serving(sel);
    assert q.reg.workers == e.reg.workers && q.reg.usedIds == e.reg.usedIds;
    assert q.reg.pool.made == {7} && q.reg.pool.core.inUse == {7};
    assert q.actors == e.actors;
  }

  lemma Serves(n: nat, sel: Labels)
    requires n > 0
    ensures G.Leads(C(n), Init(map[], 0), Serving(sel))
  {
    Created(C(n), sel);
    G.ResumesFresh(C(n), Init(map[], 0), New(sel), 0, REF, 7, 5, 0);
    FirstResume(n, sel);
  }

  // The selector after a pause on node x.
  function Pinned(sel: Labels): Labels {
    if PAUSE_NODE in sel then sel else sel[PAUSE_NODE := "x"]
  }

  lemma FirstRelease(n: nat)
    ensures ReleaseWorker(C(n), Serving(map[]).reg, HELD, false, true) == Released(Resting(map[]).reg)
  {
    assert map[5 := HELD][5 := IDLE] == map[5 := IDLE];
  }

  lemma PauseRecord(sel: Labels)
    ensures var a := G.FlippedDown(Serving(sel), REF, Pause, 0).actors[REF];
      G.Next(Stopped(Pause, a, 0), 0) == Record(PAUSED, 5, None, Some(0), Pinned(sel))
  {
  }

  lemma FirstPause(n: nat, sel: Labels)
    ensures End(G.WentDown(C(n), Serving(sel), REF, Pause, HELD, 0, 0), 1, REF) == Resting(Pinned(sel))
  {
    var u := G.Unbound(G.Saved(G.FlippedDown(Serving(sel), REF, Pause, 0), HELD, 0), REF);
    FirstRelease(n);
    assert G.GivenBack(C(n), u, HELD) == u.(reg := Resting(Pinned(sel)).reg);
    PauseRecord(sel);
    var q, e := End(G.WentDown(C(n), Serving(sel), REF, Pause, HELD, 0, 0), 1, REF), Resting(Pinned(sel));
    assert q.bindings == e.bindings && q.tasks == e.tasks;
  }

  lemma Rests(n: nat, sel: Labels)
    requires n > 0
    ensures G.Leads(C(n), Init(map[], 0), Resting(Pinned(sel)))
  {
    Serves(n, sel);
    G.GoesDown(C(n), Init(map[], 0), Serving(sel), 1, REF, Pause, HELD, 0, 0);
    FirstPause(n, sel);
  }

  // ---- a pause whose checkpoint fails ----

  lemma FlippedToPausing(n: nat)
    requires n > 0
    ensures G.Leads(C(n), Init(map[], 0), G.Holds(G.FlippedDown(Serving(map[]), REF, Pause, 0), 1, REF, Pause, Fetch))
  {
    Serves(n, map[]);
    G.FlipsDown(C(n), Init(map[], 0), Serving(map[]), 1, REF, Pause, 0);
  }

  // The binding outlives RUNNING.
  lemma RoutedWhilePausing() returns (s: Sys)
    ensures Reachable(C(1), s) && REF in s.bindings && REF in s.actors && s.actors[REF].status.PAUSING?
  {
    FlippedToPausing(1);
    s := G.Holds(G.FlippedDown(Serving(map[]), REF, Pause, 0), 1, REF, Pause, Fetch);
  }

  // Every operation has ended, nobody crashed or was deleted, and the pool's
  // only sandbox is lost.
  lemma FailedPauseOrphans() returns (s: Sys)
    ensures Reachable(C(1), s) && (forall id :: id in s.tasks ==> s.tasks[id].Ended?)
    ensures REF in s.actors && s.actors[REF].status.PAUSING? && Orphan(s, 5) && s.reg.workers[5].sandbox == Some(7)
    ensures s.reg.pool.core.inUse == {7} && C(1).pool.maxSize == 1
  {
    var f := G.FlippedDown(Serving(map[]), REF, Pause, 0);
    FlippedToPausing(1);
    G.Fetches(C(1), Init(map[], 0), f, 1, REF, Pause, 5);
    s := End(f, 1, REF);
    G.Again(f, 1, Stop(REF, Pause, Holding(f.actors[REF], Save(HELD))), Ended(REF));
    G.Then(C(1), Init(map[], 0), G.Holds(f, 1, REF, Pause, Save(HELD)), Advance(1, G.Choose(0, Fails, 0, 0, 0)), s);
  }

  // ---- running actors that no client can reach ----

  // A crash not yet written.
  lemma RunningUnrouted() returns (s: Sys)
    ensures Reachable(C(1), s) && Running(s, REF) && REF !in s.bindings
  {
    Serves(1, map[]);
    G.UnroutesForCrash(C(1), Init(map[], 0), Serving(map[]), 1, REF);
    s := Goto(G.Unbound(Serving(map[]), REF), 1, Crash(REF, CrashCommit(Serving(map[]).actors[REF])));
  }

  // The suspend of an actor that is about to be unrouted.
  function Saving(): Task {
    Stop(REF, Suspend, Holding(Record(SUSPENDING, 4, Some(ASG), None, map[]), Unbind(HELD, 0, map[])))
  }

  // The actor has crashed meanwhile.
  function CrashedMeanwhile(): Sys {
    At(Record(CRASHED, 5, None, None, map[]), map[0 := Ended(REF), 1 := Saving(), 2 := Ended(REF)], map[],
       Registry(map[5 := HELD], {5}, map[], Lent()), Disk(map[0 := map[]], map[], map[]))
  }

  lemma CrashesMeanwhile()
    ensures G.Leads(C(2), Init(map[], 0), CrashedMeanwhile())
  {
    var c, o := C(2), Init(map[], 0);
    var f := G.FlippedDown(Serving(map[]), REF, Suspend, 0);
    Serves(2, map[]);
    G.FlipsDown(c, o, Serving(map[]), 1, REF, Suspend, 0);
    G.Fetches(c, o, f, 1, REF, Suspend, 5);
    G.SavesTree(c, o, f, 1, REF, Suspend, HELD, 0);
    var s := Goto(G.Saved(f, HELD, 0), 1, Saving());
    assert f.actors[REF] == Record(SUSPENDING, 4, Some(ASG), None, map[]);
    G.Crashes(c, o, s, 2, REF, 0);
    var q := End(G.Crashed(s, REF, 0), 2, REF);
    assert q.actors == CrashedMeanwhile().actors && q.tasks == CrashedMeanwhile().tasks;
    assert q.bindings == map[] && q.disk == CrashedMeanwhile().disk;
  }

  lemma ResumedMeanwhile(q: Sys)
    requires q == End(G.ResumedFresh(C(2), CrashedMeanwhile(), REF, 8, 6, 0), 3, REF)
    ensures Running(q, REF) && q == Goto(q, 1, Saving())
    ensures q.tasks == map[0 := Ended(REF), 1 := Saving(), 2 := Ended(REF), 3 := Ended(REF)]
  {
    assert q.tasks == q.tasks[1 := Saving()];
  }

  // A suspend that began before the crash unroutes the actor resumed after it.
  lemma StaleSuspendUnroutes() returns (s: Sys)
    ensures Reachable(C(2), s) && Running(s, REF) && REF !in s.bindings
    ensures forall id :: id in s.tasks ==> s.tasks[id].Ended? || s.tasks[id].Stop?
  {
    var c, o, r := C(2), Init(map[], 0), CrashedMeanwhile();
    CrashesMeanwhile();
    assert G.NoneEligible(r, TM, REF);
    G.ResumesFresh(c, o, r, 3, REF, 8, 6, 0);
    var q := End(G.ResumedFresh(c, r, REF, 8, 6, 0), 3, REF);
    ResumedMeanwhile(q);
    var a := Record(SUSPENDING, 4, Some(ASG), None, map[]);
    G.UnbindsActor(c, o, q, 1, REF, Suspend, a, HELD, 0, map[]);
    s := G.Stopping(G.Unbound(q, REF), 1, REF, Suspend, Holding(a, HoldStage.Release(HELD, 0, map[])));
  }

  // ---- an actor that names another node ----

  // It pauses on node x and leaves worker 5 idle there, which nothing but the
  // node keeps it from; it resumes onto a fresh worker, on node x too.
  lemma ElsewhereBootsFresh() returns (p: Sys, q: Sys)
    ensures Reachable(C(2), p) && G.Leads(C(2), p, q)
    ensures REF in p.actors && p.actors[REF].status.PAUSED? && L.Names(p.actors[REF], "y")
    ensures Eligible(p.reg.workers, L.Anywhere(TM, p.actors[REF]), 5) && p.reg.workers[5].node == Some("x")
    ensures Running(q, REF) && q.actors[REF].assignment.Some? && WorkerOf(q, REF) == 6 && 6 !in p.reg.workers
    ensures q.actors[REF].assignment.value.node == Some("x")
    ensures 5 in q.reg.workers && q.reg.workers[5] == p.reg.workers[5]
  {
    var c, sel := C(2), map[PAUSE_NODE := "y"];
    Rests(2, sel);
    p := Resting(sel);
    G.Stays(c, p);
    assert G.NoneEligible(p, TM, REF);
    G.ResumesFresh(c, p, p, 2, REF, 8, 6, 0);
    q := End(G.ResumedFresh(c, p, REF, 8, 6, 0), 2, REF);
  }

  // ---- a claim that is lost ----

  // Another actor, which may run anywhere.
  function Both(): Sys {
    var s := Resting(map[PAUSE_NODE := "x"]);
    s.(actors := s.actors[OTHER := NewActor(OTHER, "t", map[], 0)])
  }

  function Chosen(s: Sys, id: TaskId, ref: ActorRef): Sys
    requires ref in s.actors && 5 in s.reg.workers
  {
    G.Claiming0(G.Popped(G.Flipped(s, ref, 0), 5), id, ref, TM, G.Flipped(s, ref, 0).actors[ref], 5)
  }

  lemma Chooses(s: Sys, id: TaskId, ref: ActorRef)
    requires G.Leads(C(1), Init(map[], 0), s) && G.CanResume(s, ref) && id !in s.tasks && !HasLeader(s, ref)
    requires s.catalog.templates == map["t" := TM] && s.actors[ref].templateId == "t" && G.CanClaim(s, 5)
    requires Eligible(s.reg.workers, ConstraintsFor(TM, s.actors[ref]), 5)
    ensures G.Leads(C(1), Init(map[], 0), Chosen(s, id, ref))
  {
    var f := G.Flipped(s, ref, 0);
    G.Flips(C(1), Init(map[], 0), s, id, ref, 0);
    assert ConstraintsFor(TM, f.actors[ref]) == ConstraintsFor(TM, s.actors[ref]);
    G.PicksIdle(C(1), Init(map[], 0), f, id, ref, TM, 5);
  }

  lemma BothChoose() returns (q: Sys)
    ensures OTHER in q.actors && q.reg.workers == map[5 := IDLE]
    ensures G.Leads(C(1), Init(map[], 0), G.Claiming0(q, 3, OTHER, TM, q.actors[OTHER], 5))
    ensures 2 in q.tasks && q.tasks[2].Resume? && q.tasks[2].resume.Claiming? && q.tasks[2].ref == REF
    ensures var st := q.tasks[2].resume; st.template == TM && st.attempt == 0 && st.claim == Claim(IDLE)
  {
    Rests(1, map[]);
    G.Then(C(1), Init(map[], 0), Resting(map[PAUSE_NODE := "x"]), Create(OTHER, "t", map[], 0), Both());
    Chooses(Both(), 2, REF);
    var s := Chosen(Both(), 2, REF);
    Chooses(s, 3, OTHER);
    q := G.Popped(G.Flipped(s, OTHER, 0), 5);
  }

  lemma OneClaims() returns (q: Sys)
    ensures G.Leads(C(1), Init(map[], 0), q) && 2 in q.tasks && 3 in q.tasks
    ensures q.tasks[2].Resume? && q.tasks[2].resume.Claiming? && q.tasks[2].ref == REF
    ensures var st := q.tasks[2].resume; st.template == TM && st.attempt == 0 && st.claim == Claim(IDLE)
    ensures HeldByTask(q.tasks[3]) == Some(5) && 5 in q.reg.workers && q.reg.workers[5].version == IDLE.version + 1
  {
    var s := BothChoose();
    G.Claims(C(1), Init(map[], 0), s, 3, OTHER, TM, 5, 0);
    q := G.SettingUp(G.Claimed(s, OTHER, 5, 0), 3, OTHER, TM, 5, Restore);
  }

  // Two resumes picked worker 5; one claimed it, and the other is about to drain it.
  lemma ClaimIsLost() returns (s: Sys)
    ensures Reachable(C(1), s) && 2 in s.tasks && 3 in s.tasks
    ensures s.tasks[2].Resume? && s.tasks[2].resume.Claiming? && s.tasks[2].resume.claim == Drain(IDLE)
    ensures HeldByTask(s.tasks[3]) == Some(5) && 5 in s.reg.workers && s.reg.workers[5].version == IDLE.version + 1
  {
    var q := OneClaims();
    G.LosesClaim(C(1), Init(map[], 0), q, 2, REF, TM, q.tasks[2].resume.actor, 0, IDLE);
    s := G.Resuming(q, 2, REF, Claiming(TM, q.tasks[2].resume.actor, 0, Drain(IDLE)));
  }
}
