// The one workflow of the repository: the four steps of a resume, run and
// re-run on one context.
module ResumeWorkflow {
  import opened Wrappers
  import opened Model
  import opened OrchestratorModel
  import opened Lifecycle

  // record: the actor's record in the store.  supply: the workers that the
  // pool will come up with, in order.  The rest is the context's data.
  datatype Context = Context(record: Actor, supply: seq<Worker>, actor: Option<Actor>, worker: Option<Worker>,
                             restored: bool, assignment: Option<Assignment>)

  const LOAD: nat := 0
  const CLAIM: nat := 1
  const RESTORE: nat := 2
  const FINALIZE: nat := 3

  predicate IsRunning(c: Context) {
    c.record.status.RUNNING? && c.record.assignment.Some?
  }

  function Unchanged(c: Context, point: nat): Context {
    c
  }

  // The look of a step that writes nothing.
  function Looks(c: Context): Context {
    c
  }

  // Finding the actor RUNNING, the last step notes its assignment, and the
  // first one the record too.
  function NotesAssignment(c: Context): Context {
    c.(assignment := c.record.assignment)
  }

  function NotesBoth(c: Context): Context {
    NotesAssignment(c).(actor := Some(c.record))
  }

  predicate HasWorker(c: Context) {
    c.actor.Some? && c.worker.Some?
  }

  predicate CanFlip(c: Context) {
    && c.actor.Some? && c.supply != []
    && (c.actor.value.version == c.record.version || c.record.status.RESUMING?)
  }

  // The flip to RESUMING through the loaded copy, or the re-read after a conflict.
  function Flipped(c: Context): Context {
    if c.actor.Some? && c.actor.value.version == c.record.version then
      var rec := c.record.(status := RESUMING, version := c.record.version + 1);
      c.(record := rec, actor := Some(rec))
    else c.(actor := Some(c.record))
  }

  function Claimed(c: Context): Context {
    if c.supply == [] then c else Flipped(c).(worker := Some(c.supply[0]), supply := c.supply[1..])
  }

  // A claim that fails after losing `lost` workers to others.
  function Flopped(c: Context, lost: nat): Context {
    Flipped(c).(supply := if lost <= |c.supply| then c.supply[lost..] else [])
  }

  function Finalized(c: Context): Context {
    if c.worker.None? then c
    else
      var asg := AssignmentFor(c.record.Ref(), c.worker.value, 0);
      c.(record := c.record.(status := RUNNING, version := c.record.version + 1, assignment := Some(asg)),
         assignment := Some(asg))
  }

  function Loaded(c: Context): Context {
    c.(actor := Some(c.record))
  }

  const LOAD_ACTOR: Step<Context> :=
    Step(IsRunning, NotesBoth, (c: Context) => Detached(c.record.status), Loaded, Unchanged)

  const CLAIM_WORKER: Step<Context> :=
    Step((c: Context) => c.worker.Some?, Looks, CanFlip, Claimed, Flopped)

  const RESTORE_OR_BOOT: Step<Context> :=
    Step((c: Context) => c.restored, Looks, HasWorker, (c: Context) => c.(restored := true), Unchanged)

  const FINALIZE_RUNNING: Step<Context> :=
    Step(IsRunning, NotesAssignment, (c: Context) => HasWorker(c) && c.actor.value.version == c.record.version,
         Finalized, Unchanged)

  const STEPS: seq<Step<Context>> := [LOAD_ACTOR, CLAIM_WORKER, RESTORE_OR_BOOT, FINALIZE_RUNNING]

  // A worker and an actor to show the other two by.
  const WORKER := Worker(0, ACTIVE, VFS, 1, None, map[], None, Some(0))

  function Loadable(st: ActorStatus): Context {
    Context(Actor("a", "n", "t", st, 1, None, None, map[], 0, 0), [WORKER], None, None, false, None)
  }

  lemma LoadDoesNotLast()
    ensures !Lasting(STEPS, LOAD)
  {
    var c := Loadable(SUSPENDED);
    assert !STEPS[LOAD].complete(c) && STEPS[LOAD].ready(c) && !STEPS[LOAD].complete(STEPS[LOAD].effect(c));
  }

  lemma FinalizeDoesNotLast()
    ensures !Lasting(STEPS, FINALIZE)
  {
    var asg := AssignmentFor(ActorRef("n", "a"), WORKER, 0);
    var rec := Loadable(RUNNING).record.(assignment := Some(asg));
    var c := Loadable(RUNNING).(record := rec, actor := Some(rec));
    assert STEPS[FINALIZE].complete(c) && !STEPS[FINALIZE].complete(STEPS[CLAIM].effect(c));
  }

  lemma ClaimLasts()
    ensures Lasting(STEPS, CLAIM)
  {
  }

  lemma RestoreLasts()
    ensures Lasting(STEPS, RESTORE)
  {
  }

  // Of the four, claiming and restoring complete themselves for good; loading
  // does not complete itself, and a flip undoes finalizing.
  lemma LastingIff(i: nat)
    requires i < |STEPS|
    ensures Lasting(STEPS, i) <==> i == CLAIM || i == RESTORE
  {
    LoadDoesNotLast();
    ClaimLasts();
    RestoreLasts();
    FinalizeDoesNotLast();
  }

  // So re-runs on one context claim one worker at most, and restore once.
  lemma ClaimsOnce(hows: seq<nat -> Execution>, c: Context)
    requires hows != []
    ensures var log := multiset(Rerun(STEPS, hows, c).log);
      log[CLAIM] <= (if c.worker.Some? then 0 else 1) && log[RESTORE] <= 1
  {
    LastingIff(CLAIM);
    LastingIff(RESTORE);
    LastingOnce(STEPS, hows, c, CLAIM);
    LastingOnce(STEPS, hows, c, RESTORE);
  }

  function ClaimFails(step: nat): Execution {
    if step == CLAIM then FailsAt(0) else Execution.Succeeds
  }

  // Loading is not a step of that kind: a re-run after a failed claim loads
  // again, from a record that the claim has flipped.
  lemma LoadsTwice(c: Context)
    requires Detached(c.record.status) && c.record.assignment.None? && c.worker.None? && c.supply != []
    ensures multiset(Rerun(STEPS, [ClaimFails, ClaimFails], c).log)[LOAD] == 2
    ensures Rerun(STEPS, [ClaimFails, ClaimFails], c).ctx.record.status.RESUMING?
  {
    var loaded := Loaded(c);
    assert Attempt(STEPS, ClaimFails, CLAIM, loaded) == Progress(Flopped(loaded, 0), [], CLAIM);
    var p := Attempt(STEPS, ClaimFails, 0, c);
    assert p == Progress(Flopped(loaded, 0), [LOAD], CLAIM);
    var again := Loaded(p.ctx);
    assert Attempt(STEPS, ClaimFails, CLAIM, again) == Progress(Flopped(again, 0), [], CLAIM);
    assert Attempt(STEPS, ClaimFails, 0, p.ctx) == Progress(Flopped(again, 0), [LOAD], CLAIM);
  }
}
