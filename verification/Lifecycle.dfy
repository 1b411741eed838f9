// The workflow engine of lifecycle.py: idempotent steps, re-run after a failure.
module Lifecycle {
  import opened Wrappers

  // complete: is_complete.  noted: what it writes when it holds.  ready: whether pre_check, and the checks execute
  // begins with, let the step run.  effect: what a successful execute does to
  // the context; partial: what one does that fails at some point.
  datatype Step<!C> = Step(complete: C -> bool, noted: C -> C, ready: C -> bool, effect: C -> C, partial: (C, nat) -> C)

  datatype Execution = Succeeds | FailsAt(point: nat)

  // What one run of a workflow comes to: the context, the steps it executed,
  // and the step it stopped at (the number of steps, if it finished).
  datatype Progress<C> = Progress(ctx: C, log: seq<nat>, stopped: nat)

  // What the documentation asks of the steps: executing one completes it, no
  // later step undoes that, and a failed execution does nothing, nor does a
  // look at whether a step is complete.
  ghost predicate Idempotent<C(!new)>(steps: seq<Step<C>>) {
    && (forall i, c :: 0 <= i < |steps| ==> steps[i].complete(steps[i].effect(c)))
    && (forall i, j, c :: 0 <= i < j < |steps| && steps[i].complete(c) ==> steps[i].complete(steps[j].effect(c)))
    && (forall i, c, point :: 0 <= i < |steps| ==> steps[i].partial(c, point) == c)
    && LooksOnly(steps)
  }

  ghost predicate LooksOnly<C(!new)>(steps: seq<Step<C>>) {
    forall i, c :: 0 <= i < |steps| && steps[i].complete(c) ==> steps[i].noted(c) == c
  }

  // One run from step k on; how says which executions succeed.
  function Attempt<C>(steps: seq<Step<C>>, how: nat -> Execution, k: nat, c: C): (p: Progress<C>)
    requires k <= |steps|
    ensures p.stopped <= |steps|
    ensures p.stopped < |steps| && how(p.stopped).Succeeds? ==>
      !steps[p.stopped].complete(p.ctx) && !steps[p.stopped].ready(p.ctx)
    decreases |steps| - k
  {
    if k == |steps| then Progress(c, [], k)
    else if steps[k].complete(c) then Attempt(steps, how, k + 1, steps[k].noted(c))
    else if !steps[k].ready(c) then Progress(c, [], k)
    else
      match how(k)
      case Succeeds =>
        var p := Attempt(steps, how, k + 1, steps[k].effect(c));
        p.(log := [k] + p.log)
      case FailsAt(point) => Progress(steps[k].partial(c, point), [], k)
  }

  // Run, and re-run after each failure, as long as attempts are left.
  function Rerun<C>(steps: seq<Step<C>>, hows: seq<nat -> Execution>, c: C): (p: Progress<C>)
    requires hows != []
    ensures p.stopped <= |steps|
  {
    var p := Attempt(steps, hows[0], 0, c);
    if p.stopped == |steps| || |hows| == 1 then p
    else
      var q := Rerun(steps, hows[1..], p.ctx);
      q.(log := p.log + q.log)
  }

  class Workflow<!C> {
    const steps: seq<Step<C>>

    constructor (ss: seq<Step<C>>)
      requires ss != []
      ensures steps == ss
    {
      steps := ss;
    }

    // None is the exception raised by a step.
    method Run(ctx: C, how: nat -> Execution) returns (r: C, executed: seq<nat>, stopped: nat)
      ensures Progress(r, executed, stopped) == Attempt(steps, how, 0, ctx)
    {
      r, executed, stopped := ctx, [], 0;
      while stopped < |steps|
        invariant stopped <= |steps|
        invariant var p := Attempt(steps, how, stopped, r);
          Attempt(steps, how, 0, ctx) == p.(log := executed + p.log)
      {
        if steps[stopped].complete(r) {
          r := steps[stopped].noted(r);
        } else {
          if !steps[stopped].ready(r) {
            return;
          }
          if how(stopped).FailsAt? {
            r := steps[stopped].partial(r, how(stopped).point);
            return;
          }
          r := steps[stopped].effect(r);
          executed := executed + [stopped];
        }
        stopped := stopped + 1;
      }
    }
  }

  // ---- one uninterrupted run ----

  // The context after the first k steps, none of which fails.
  function After<C>(steps: seq<Step<C>>, k: nat, c: C): C
    requires k <= |steps|
  {
    if k == 0 then c
    else
      var d := After(steps, k - 1, c);
      if steps[k - 1].complete(d) then d else steps[k - 1].effect(d)
  }

  // The steps among the first k that such a run executes.
  function Executed<C>(steps: seq<Step<C>>, k: nat, c: C): seq<nat>
    requires k <= |steps|
  {
    if k == 0 then []
    else if steps[k - 1].complete(After(steps, k - 1, c)) then Executed(steps, k - 1, c)
    else Executed(steps, k - 1, c) + [k - 1]
  }

  lemma {:induction false} ExecutedInOrder<C(!new)>(steps: seq<Step<C>>, k: nat, c: C)
    requires k <= |steps|
    ensures forall i :: 0 <= i < |Executed(steps, k, c)| ==> Executed(steps, k, c)[i] < k
    ensures forall i, j :: 0 <= i < j < |Executed(steps, k, c)| ==>
      Executed(steps, k, c)[i] < Executed(steps, k, c)[j]
  {
    if k > 0 {
      ExecutedInOrder(steps, k - 1, c);
    }
  }

  // Each of the first k steps is complete by then or passes its pre_check.
  predicate Passable<C>(steps: seq<Step<C>>, k: nat, c: C)
    requires k <= |steps|
  {
    k == 0
    || (Passable(steps, k - 1, c)
        && (var d := After(steps, k - 1, c); steps[k - 1].complete(d) || steps[k - 1].ready(d)))
  }

  lemma {:induction false} StaysComplete<C(!new)>(steps: seq<Step<C>>, k: nat, c: C, i: nat)
    requires Idempotent(steps) && i < k <= |steps|
    ensures steps[i].complete(After(steps, k, c))
  {
    if i < k - 1 {
      StaysComplete(steps, k - 1, c, i);
    }
  }

  // Started with k steps done, the run gets to p.stopped as one run would.
  ghost predicate Reaches<C>(steps: seq<Step<C>>, k: nat, c: C, p: Progress<C>) {
    && k <= |steps| && p.stopped <= |steps|
    && Passable(steps, p.stopped, c)
    && p.ctx == After(steps, p.stopped, c)
    && Executed(steps, k, c) + p.log == Executed(steps, p.stopped, c)
  }

  lemma LogsFrom<C(!new)>(steps: seq<Step<C>>, k: nat, c: C, log: seq<nat>)
    requires k < |steps|
    ensures Executed(steps, k + 1, c) + log
         == Executed(steps, k, c) + (if steps[k].complete(After(steps, k, c)) then log else [k] + log)
  {
    var before := Executed(steps, k, c);
    assert (before + [k]) + log == before + ([k] + log);
  }

  // The executions that fail leave the context alone.
  ghost predicate Harmless<C(!new)>(steps: seq<Step<C>>, how: nat -> Execution) {
    forall i, c :: 0 <= i < |steps| && how(i).FailsAt? ==> steps[i].partial(c, how(i).point) == c
  }

  // A run that starts where the first k steps left off goes on from step k.
  lemma {:induction false} AttemptFrom<C(!new)>(steps: seq<Step<C>>, how: nat -> Execution, k: nat, c: C)
    requires k <= |steps| && Passable(steps, k, c) && Harmless(steps, how) && LooksOnly(steps)
    ensures Reaches(steps, k, c, Attempt(steps, how, k, After(steps, k, c)))
    decreases |steps| - k
  {
    if k < |steps| {
      var d := After(steps, k, c);
      if steps[k].complete(d) || (steps[k].ready(d) && how(k).Succeeds?) {
        AttemptFrom(steps, how, k + 1, c);
        LogsFrom(steps, k, c, Attempt(steps, how, k + 1, After(steps, k + 1, c)).log);
      }
    }
  }

  // Steps already complete are skipped.
  lemma {:induction false} SkipsComplete<C(!new)>(steps: seq<Step<C>>, how: nat -> Execution, k: nat, j: nat, c: C)
    requires j <= k <= |steps| && (forall i :: j <= i < k ==> steps[i].complete(c)) && LooksOnly(steps)
    ensures Attempt(steps, how, j, c) == Attempt(steps, how, k, c)
    decreases k - j
  {
    if j < k {
      SkipsComplete(steps, how, k, j + 1, c);
    }
  }

  // A re-run after a failure at step k resumes at step k.
  lemma ResumesAtFailure<C(!new)>(steps: seq<Step<C>>, how: nat -> Execution, k: nat, c: C)
    requires Idempotent(steps) && k <= |steps|
    ensures Attempt(steps, how, 0, After(steps, k, c)) == Attempt(steps, how, k, After(steps, k, c))
  {
    forall i | 0 <= i < k
      ensures steps[i].complete(After(steps, k, c))
    {
      StaysComplete(steps, k, c, i);
    }
    SkipsComplete(steps, how, k, 0, After(steps, k, c));
  }

  lemma AttemptAgain<C(!new)>(steps: seq<Step<C>>, how: nat -> Execution, k: nat, c: C)
    requires Idempotent(steps) && k <= |steps| && Passable(steps, k, c)
    ensures Reaches(steps, k, c, Attempt(steps, how, 0, After(steps, k, c)))
  {
    ResumesAtFailure(steps, how, k, c);
    AttemptFrom(steps, how, k, c);
  }

  lemma ReachesFurther<C(!new)>(steps: seq<Step<C>>, k: nat, c: C, p: Progress<C>, q: Progress<C>)
    requires Reaches(steps, k, c, p) && Reaches(steps, p.stopped, c, q)
    ensures Reaches(steps, k, c, q.(log := p.log + q.log))
  {
    assert Executed(steps, k, c) + (p.log + q.log) == (Executed(steps, k, c) + p.log) + q.log;
  }

  lemma {:induction false} RerunFrom<C(!new)>(steps: seq<Step<C>>, hows: seq<nat -> Execution>, k: nat, c: C)
    requires Idempotent(steps) && hows != [] && k <= |steps| && Passable(steps, k, c)
    ensures Reaches(steps, k, c, Rerun(steps, hows, After(steps, k, c)))
    decreases |hows|
  {
    AttemptAgain(steps, hows[0], k, c);
    var p := Attempt(steps, hows[0], 0, After(steps, k, c));
    if p.stopped < |steps| && |hows| > 1 {
      RerunFrom(steps, hows[1..], p.stopped, c);
      ReachesFurther(steps, k, c, p, Rerun(steps, hows[1..], p.ctx));
    }
  }

  lemma {:induction false} PassableBefore<C(!new)>(steps: seq<Step<C>>, j: nat, k: nat, c: C)
    requires j <= k <= |steps| && Passable(steps, k, c)
    ensures Passable(steps, j, c)
    decreases k
  {
    if j < k {
      PassableBefore(steps, j, k - 1, c);
    }
  }

  // Executions that all succeed.
  function Always(step: nat): Execution {
    Succeeds
  }

  lemma Finishes<C(!new)>(steps: seq<Step<C>>, p: Progress<C>, c: C)
    requires p.stopped <= |steps| && Passable(steps, |steps|, c) && p.ctx == After(steps, p.stopped, c)
    requires p.stopped < |steps| ==> !steps[p.stopped].complete(p.ctx) && !steps[p.stopped].ready(p.ctx)
    ensures p.stopped == |steps|
  {
    if p.stopped < |steps| {
      PassableBefore(steps, p.stopped + 1, |steps|, c);
      assert false;
    }
  }

  lemma Uninterrupted<C(!new)>(steps: seq<Step<C>>, c: C)
    requires Passable(steps, |steps|, c) && LooksOnly(steps)
    ensures Attempt(steps, Always, 0, c) == Progress(After(steps, |steps|, c), Executed(steps, |steps|, c), |steps|)
  {
    AttemptFrom(steps, Always, 0, c);
    var p := Attempt(steps, Always, 0, c);
    Finishes(steps, p, c);
    assert [] + p.log == p.log;
  }

  lemma ReachesFromStart<C(!new)>(steps: seq<Step<C>>, c: C, p: Progress<C>)
    requires Reaches(steps, 0, c, p)
    ensures p == Progress(After(steps, p.stopped, c), Executed(steps, p.stopped, c), p.stopped)
    ensures p.stopped == |steps| ==> Passable(steps, |steps|, c)
  {
    assert [] + p.log == p.log;
  }

  // However many runs fail, and wherever, each step is executed at most once in
  // all, in order; and once a run finishes, the context and the executions are
  // those of a single uninterrupted run.
  lemma RerunIsOneRun<C(!new)>(steps: seq<Step<C>>, hows: seq<nat -> Execution>, c: C)
    requires Idempotent(steps) && hows != []
    ensures var p := Rerun(steps, hows, c);
      && (forall i, j :: 0 <= i < j < |p.log| ==> p.log[i] < p.log[j])
      && p.ctx == After(steps, p.stopped, c)
      && (p.stopped == |steps| ==> p == Attempt(steps, Always, 0, c))
  {
    RerunFrom(steps, hows, 0, c);
    var p := Rerun(steps, hows, c);
    ReachesFromStart(steps, c, p);
    ExecutedInOrder(steps, p.stopped, c);
    if p.stopped == |steps| {
      Uninterrupted(steps, c);
    }
  }

  // ---- steps that keep less of that contract ----

  // Executing step i completes it, and nothing that any step does, succeeding,
  // failing or only looking, undoes that.
  ghost predicate Lasting<C(!new)>(steps: seq<Step<C>>, i: nat) {
    && i < |steps|
    && (forall c :: !steps[i].complete(c) && steps[i].ready(c) ==> steps[i].complete(steps[i].effect(c)))
    && (forall j, c :: 0 <= j < |steps| && steps[i].complete(c) ==>
                         steps[i].complete(steps[j].effect(c)) && steps[i].complete(steps[j].noted(c)))
    && (forall j, c, point :: 0 <= j < |steps| && steps[i].complete(c) ==>
                                steps[i].complete(steps[j].partial(c, point)))
  }

  lemma {:induction false} AttemptOnce<C(!new)>(steps: seq<Step<C>>, how: nat -> Execution, k: nat, c: C, i: nat)
    requires Lasting(steps, i) && k <= |steps|
    ensures var p := Attempt(steps, how, k, c);
      && multiset(p.log)[i] <= (if steps[i].complete(c) || i < k then 0 else 1)
      && (steps[i].complete(c) || multiset(p.log)[i] == 1 ==> steps[i].complete(p.ctx))
    decreases |steps| - k
  {
    if k == |steps| {
    } else if steps[k].complete(c) {
      AttemptOnce(steps, how, k + 1, steps[k].noted(c), i);
    } else if steps[k].ready(c) && how(k).Succeeds? {
      AttemptOnce(steps, how, k + 1, steps[k].effect(c), i);
      var rest := Attempt(steps, how, k + 1, steps[k].effect(c)).log;
      assert multiset([k] + rest) == multiset{k} + multiset(rest);
    }
  }

  // Over any number of re-runs such a step is executed successfully at most
  // once, whatever the other steps are.
  lemma {:induction false} LastingOnce<C(!new)>(steps: seq<Step<C>>, hows: seq<nat -> Execution>, c: C, i: nat)
    requires Lasting(steps, i) && hows != []
    ensures multiset(Rerun(steps, hows, c).log)[i] <= if steps[i].complete(c) then 0 else 1
  {
    AttemptOnce(steps, hows[0], 0, c, i);
    var p := Attempt(steps, hows[0], 0, c);
    if p.stopped < |steps| && |hows| > 1 {
      LastingOnce(steps, hows[1..], p.ctx, i);
      var rest := Rerun(steps, hows[1..], p.ctx).log;
      assert multiset(p.log + rest) == multiset(p.log) + multiset(rest);
    }
  }
}
