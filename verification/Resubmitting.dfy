/** Submissions that fail: they use up no retry and never make the task Failed. */
module Resubmitting {
  import opened AgentTasks
  import opened Protocol
  import opened World
  import opened Invariant
  import opened Preservation
  import opened Lifecycle
  import SampleRuns

  /** The failed submissions of a run: the passes of a goroutine's loop that end in a pause. */
  ghost function Failures(cfg: Config, start: World, steps: seq<Step>): nat
    requires RunFrom(cfg, start, steps).Some?
  {
    if steps == [] then 0
    else
      var before := steps[..|steps| - 1];
      var u, v := RunFrom(cfg, start, before).value, RunFrom(cfg, start, steps).value;
      Failures(cfg, start, before) + (if !u.sub.SSleep? && v.sub.SSleep? then 1 else 0)
  }

  /** Some run with n failed submissions leads here. */
  ghost predicate ReachableAfter(cfg: Config, w: World, n: nat) {
    exists start, steps :: IsInitial(start) && RunFrom(cfg, start, steps) == Some(w) && Failures(cfg, start, steps) >= n
  }

  lemma AdvanceCounting(cfg: Config, w: World, step: Step, n: nat) returns (v: World)
    requires ReachableAfter(cfg, w, n) && Enabled(cfg, w, step)
    ensures v == Apply(cfg, w, step)
    ensures ReachableAfter(cfg, v, if !w.sub.SSleep? && v.sub.SSleep? then n + 1 else n)
  {
    v := Apply(cfg, w, step);
    var start, steps :|
      IsInitial(start) && RunFrom(cfg, start, steps) == Some(w) && Failures(cfg, start, steps) >= n;
    var more := steps + [step];
    assert more[..|more| - 1] == steps;
    assert RunFrom(cfg, start, more) == Some(v);
    assert Failures(cfg, start, more) >= if !w.sub.SSleep? && v.sub.SSleep? then n + 1 else n;
  }

  /** There is no limit on failed submissions: for every valid spec and every n some run has n of them, and the task
      is still Started, has used no retry, and is about to be submitted again. */
  lemma {:induction false} FailuresHaveNoLimit(cfg: Config, name: string, meta: Metadata, spec: Spec, n: nat)
    returns (w: World)
    requires ValidSpec(spec)
    ensures ReachableAfter(cfg, w, n) && w == SampleRuns.Submitter(name, meta, spec, SPoll(name), {})
  {
    if n == 0 {
      w := SampleRuns.Polling(cfg, name, meta, spec);
      var start, steps :| IsInitial(start) && RunFrom(cfg, start, steps) == Some(w);
      assert Failures(cfg, start, steps) >= 0;
    } else {
      w := FailuresHaveNoLimit(cfg, name, meta, spec, n - 1);
      w := FailsOnce(cfg, name, meta, spec, w, n - 1);
    }
  }

  lemma Retries(cfg: Config, name: string, meta: Metadata, spec: Spec, w: World, n: nat) returns (v: World)
    requires ReachableAfter(cfg, w, n) && w == SampleRuns.Submitter(name, meta, spec, SPoll(name), {})
    requires ValidSpec(spec)
    ensures ReachableAfter(cfg, v, n)
    ensures v == w.(sub := SCreate(SampleRuns.StartedTask(name, meta, spec)))
  {
    v := AdvanceCounting(cfg, w, Sub(Flag(false), false, ""), n);
    v := AdvanceCounting(cfg, v, Sub(GotTask(w.obj.value), false, ""), n);
  }

  /** One failed pass: the claim cannot be created. */
  lemma FailsOnce(cfg: Config, name: string, meta: Metadata, spec: Spec, w: World, n: nat) returns (v: World)
    requires ReachableAfter(cfg, w, n) && w == SampleRuns.Submitter(name, meta, spec, SPoll(name), {})
    requires ValidSpec(spec)
    ensures ReachableAfter(cfg, v, n + 1) && v == w
  {
    v := Retries(cfg, name, meta, spec, w, n);
    v := AdvanceCounting(cfg, v, Sub(Failure, false, ""), n);
    v := AdvanceCounting(cfg, v, Sub(Flag(false), false, ""), n + 1);
  }

  lemma FailingEdge(cfg: Config, before: Option<AgentTask>, after: Option<AgentTask>)
    requires Moves(cfg, before, after) && !InState(before, Failed) && InState(after, Failed)
    ensures InState(before, Running) && !OtherMove(before, after)
    ensures after.value.status == before.value.status.(state := Failed)
  {
  }

  /** A task fails only while Running, by the reconcile loop, and without a change of its retries or names. */
  lemma OnlyRunningTasksFail(cfg: Config, w: World, step: Step)
    requires Reachable(cfg, w) && Enabled(cfg, w, step)
    requires !InState(w.obj, Failed) && InState(Apply(cfg, w, step).obj, Failed)
    ensures InState(w.obj, Running) && step.Loop?
    ensures Apply(cfg, w, step).obj.value.status == w.obj.value.status.(state := Failed)
  {
    ReachableIsGood(cfg, w);
    StepMoves(cfg, w, step);
    FailingEdge(cfg, w.obj, Apply(cfg, w, step).obj);
    if step.Sub? {
      SubMoves(cfg, w, step.r, step.hit, step.lost);
    } else if step.Callback? {
      CallbackMoves(cfg, w, step.i, step.r, step.hit);
    }
  }
}
