/** What every run guarantees about the stored AgentTask. */
module Lifecycle {
  import opened AgentTasks
  import opened Protocol
  import opened World
  import opened Invariant
  import opened Preservation
  import opened Answering
  import opened Naming
  import opened Repairing
  import opened Addressing

  // ----- reachable worlds -----

  ghost predicate Good(cfg: Config, w: World) {
    Inv(cfg, w) && AnswersInv(w) && NamesOk(w) && RepairOk(cfg, w.sub, w.ledger) && Addressed(w)
  }

  ghost predicate Reachable(cfg: Config, w: World) {
    exists start, steps :: IsInitial(start) && RunFrom(cfg, start, steps) == Some(w)
  }

  /** Some run leads from w to v. */
  ghost predicate Leads(cfg: Config, w: World, v: World) {
    exists steps :: RunFrom(cfg, w, steps) == Some(v)
  }

  lemma StepKeepsGood(cfg: Config, w: World, step: Step)
    requires Good(cfg, w) && Enabled(cfg, w, step)
    ensures Good(cfg, Apply(cfg, w, step))
  {
    StepKeepsInv(cfg, w, step);
    StepKeepsAnswers(cfg, w, step);
    StepKeepsNames(cfg, w, step);
    StepKeepsRepair(cfg, w, step);
    StepKeepsAddressed(cfg, w, step);
  }

  lemma {:induction false} RunKeepsGood(cfg: Config, start: World, steps: seq<Step>)
    requires Good(cfg, start) && RunFrom(cfg, start, steps).Some?
    ensures Good(cfg, RunFrom(cfg, start, steps).value)
  {
    if steps != [] {
      var before := steps[..|steps| - 1];
      RunKeepsGood(cfg, start, before);
      StepKeepsGood(cfg, RunFrom(cfg, start, before).value, steps[|steps| - 1]);
    }
  }

  lemma InitialIsGood(cfg: Config, start: World)
    requires IsInitial(start)
    ensures Good(cfg, start)
  {
  }

  lemma ReachableIsGood(cfg: Config, w: World)
    requires Reachable(cfg, w)
    ensures Good(cfg, w)
  {
    var start, steps :| IsInitial(start) && RunFrom(cfg, start, steps) == Some(w);
    InitialIsGood(cfg, start);
    RunKeepsGood(cfg, start, steps);
  }

  lemma ReachableStep(cfg: Config, w: World, step: Step)
    requires Reachable(cfg, w) && Enabled(cfg, w, step)
    ensures Reachable(cfg, Apply(cfg, w, step))
  {
    var start, steps :| IsInitial(start) && RunFrom(cfg, start, steps) == Some(w);
    var more := steps + [step];
    assert more[..|more| - 1] == steps;
    assert RunFrom(cfg, start, more) == Some(Apply(cfg, w, step));
  }

  lemma {:induction false} ReachableRun(cfg: Config, w: World, more: seq<Step>)
    requires Reachable(cfg, w) && RunFrom(cfg, w, more).Some?
    ensures Reachable(cfg, RunFrom(cfg, w, more).value)
  {
    if more != [] {
      ReachableRun(cfg, w, more[..|more| - 1]);
      ReachableStep(cfg, RunFrom(cfg, w, more[..|more| - 1]).value, more[|more| - 1]);
    }
  }

  lemma Stay(cfg: Config, w: World)
    ensures Leads(cfg, w, w)
  {
    assert RunFrom(cfg, w, []) == Some(w);
  }

  /** One step further on a run from u. */
  lemma Proceed(cfg: Config, u: World, w: World, step: Step) returns (v: World)
    requires Leads(cfg, u, w) && Enabled(cfg, w, step)
    ensures v == Apply(cfg, w, step) && Leads(cfg, u, v)
  {
    v := Apply(cfg, w, step);
    var steps :| RunFrom(cfg, u, steps) == Some(w);
    var more := steps + [step];
    assert more[..|more| - 1] == steps;
    assert RunFrom(cfg, u, more) == Some(v);
  }

  /** One step further on a run from an initial world. */
  lemma Advance(cfg: Config, w: World, step: Step) returns (v: World)
    requires Reachable(cfg, w) && Enabled(cfg, w, step)
    ensures v == Apply(cfg, w, step) && Reachable(cfg, v)
  {
    v := Apply(cfg, w, step);
    ReachableStep(cfg, w, step);
  }

  // ----- refinement of the atomic machine, and its termination measure -----

  lemma StepMoves(cfg: Config, w: World, step: Step)
    requires Inv(cfg, w) && Enabled(cfg, w, step)
    ensures var v := Apply(cfg, w, step);
            Moves(cfg, w.obj, v.obj) && Counts(w, v)
  {
    match step
    case Loop(r, hit) => LoopMoves(cfg, w, r, hit);
    case Sub(r, hit, lost) => SubMoves(cfg, w, r, hit, lost);
    case Callback(i, r, hit) => CallbackMoves(cfg, w, i, r, hit);
    case _ =>
  }

  /** The last step of a run moves the object by at most one edge, and counts it. */
  lemma LastStepMoves(cfg: Config, start: World, steps: seq<Step>)
    requires Good(cfg, start) && steps != [] && RunFrom(cfg, start, steps).Some?
    ensures var before := RunFrom(cfg, start, steps[..|steps| - 1]);
            && before.Some?
            && var u, v := before.value, RunFrom(cfg, start, steps).value;
               Moves(cfg, u.obj, v.obj) && v.changes == (if v.obj == u.obj then u.changes else u.changes + 1)
  {
    RunKeepsGood(cfg, start, steps[..|steps| - 1]);
    StepMoves(cfg, RunFrom(cfg, start, steps[..|steps| - 1]).value, steps[|steps| - 1]);
  }

  /** The stored objects of a run, without repetitions. */
  ghost function History(cfg: Config, start: World, steps: seq<Step>): seq<Option<AgentTask>>
    requires RunFrom(cfg, start, steps).Some?
  {
    if steps == [] then [start.obj]
    else
      var h := History(cfg, start, steps[..|steps| - 1]);
      var obj := RunFrom(cfg, start, steps).value.obj;
      if obj == RunFrom(cfg, start, steps[..|steps| - 1]).value.obj then h else h + [obj]
  }

  ghost predicate IsAtomicPath(cfg: Config, h: seq<Option<AgentTask>>) {
    forall i :: 0 < i < |h| ==> AtomicEdge(cfg, h[i - 1], h[i])
  }

  /** Under any interleaving the stored object follows the atomic machine, although every agent
      decides on a copy that may be stale. */
  lemma {:induction false} RunsRefineAtomicMachine(cfg: Config, start: World, steps: seq<Step>)
    requires IsInitial(start) && RunFrom(cfg, start, steps).Some?
    ensures var h := History(cfg, start, steps);
            && |h| == RunFrom(cfg, start, steps).value.changes + 1
            && h[0] == start.obj && h[|h| - 1] == RunFrom(cfg, start, steps).value.obj
            && IsAtomicPath(cfg, h)
  {
    InitialIsGood(cfg, start);
    if steps != [] {
      RunsRefineAtomicMachine(cfg, start, steps[..|steps| - 1]);
      LastStepMoves(cfg, start, steps);
    }
  }

  /** Each change of content lowers the measure, so there are at most 4 * maxRetries + 7 of them. */
  lemma StepLowersMeasure(cfg: Config, w: World, step: Step)
    requires Reachable(cfg, w) && Enabled(cfg, w, step)
    ensures var v := Apply(cfg, w, step);
            && 0 <= Measure(cfg, v.obj)
            && (v.obj != w.obj ==> Measure(cfg, v.obj) < Measure(cfg, w.obj))
            && v.changes + Measure(cfg, v.obj) <= 4 * cfg.maxRetries + 7
  {
    ReachableIsGood(cfg, w);
    StepKeepsGood(cfg, w, step);
    StepMoves(cfg, w, step);
    if w.obj.Some? && w.obj != Apply(cfg, w, step).obj && Apply(cfg, w, step).obj.Some? {
      EdgeKeepsStatus(cfg, w.obj.value.spec, w.obj.value.status, Apply(cfg, w, step).obj.value.status, w.runs);
    }
  }

  lemma BoundedChanges(cfg: Config, start: World, steps: seq<Step>)
    requires IsInitial(start) && RunFrom(cfg, start, steps).Some?
    ensures |History(cfg, start, steps)| <= 4 * cfg.maxRetries + 8
  {
    RunsRefineAtomicMachine(cfg, start, steps);
    InitialIsGood(cfg, start);
    RunKeepsGood(cfg, start, steps);
  }

  // ----- Completed is absorbing, and deletion is final -----

  lemma {:induction false} CompletedIsAbsorbing(cfg: Config, w: World, more: seq<Step>)
    requires Reachable(cfg, w) && RunFrom(cfg, w, more).Some?
    ensures var v := RunFrom(cfg, w, more).value;
            && (InState(w.obj, Completed) ==> v.obj == w.obj || v.obj.None?)
            && (w.obj.None? ==> v.obj.None?)
  {
    ReachableIsGood(cfg, w);
    if more != [] {
      CompletedIsAbsorbing(cfg, w, more[..|more| - 1]);
      LastStepMoves(cfg, w, more);
    }
  }

  // ----- retries and names -----

  lemma StatusShape(cfg: Config, w: World)
    requires Reachable(cfg, w)
    ensures w.runs <= cfg.maxRetries + 1
    ensures w.obj.Some? ==>
              var s := w.obj.value.status;
              && 0 <= s.retries <= cfg.maxRetries
              && w.runs <= s.retries + 1
              && (s.state == Started ==> w.runs == s.retries)
              && (s.state == Running || s.state == Failed ==> w.runs == s.retries + 1)
              && (s.state in {Unset, Pending, Started} ==> s.HasNoNames())
              && (s.state == Running ==> s.HasAllNames())
              && (s.HasNoNames() || s.HasAllNames())
              && !s.state.Deleted? && !s.state.Other?
  {
    ReachableIsGood(cfg, w);
  }

  /** The three names always belong together: they are those of one sandbox, made for this task, that took it. */
  lemma NamesBelongTogether(cfg: Config, w: World)
    requires Reachable(cfg, w) && w.obj.Some? && w.obj.value.status.claimName != ""
    ensures var s := w.obj.value.status;
            && s.claimName in w.ledger.created
            && s.claimName in w.accepted
            && w.accepted[s.claimName].claim == s.claimName
            && w.accepted[s.claimName].sandbox == s.sandboxName
            && w.accepted[s.claimName].pod == s.podName
  {
    ReachableIsGood(cfg, w);
  }

  lemma EdgeRaisesRetries(cfg: Config, before: Option<AgentTask>, after: Option<AgentTask>)
    requires Moves(cfg, before, after) && before.Some? && after.Some?
    ensures var a, b := before.value.status, after.value.status;
            && a.retries <= b.retries <= a.retries + 1
            && (b.retries != a.retries ==> a.state == Failed && a.claimName == "" && b.state == Started)
  {
  }

  lemma RetriesNeverFall(cfg: Config, w: World, step: Step)
    requires Reachable(cfg, w) && Enabled(cfg, w, step)
    ensures var v := Apply(cfg, w, step);
            w.obj.Some? && v.obj.Some? ==>
              && w.obj.value.status.retries <= v.obj.value.status.retries <= w.obj.value.status.retries + 1
              && (v.obj.value.status.retries != w.obj.value.status.retries ==>
                    InState(w.obj, Failed) && w.obj.value.status.HasNoNames() && InState(v.obj, Started))
  {
    ReachableIsGood(cfg, w);
    StepMoves(cfg, w, step);
    var after := Apply(cfg, w, step).obj;
    if w.obj.Some? && after.Some? { EdgeRaisesRetries(cfg, w.obj, after); }
  }

  // ----- teardown -----

  /** When the loop is about to close a claim, the stored task is Failed or Completed at that very
      moment and still names this claim, however old the copy is that the loop decided on. */
  lemma TeardownSafety(cfg: Config, w: World)
    requires Reachable(cfg, w) && w.loop.LClose?
    ensures w.obj.Some?
    ensures w.obj.value.status.state == Failed || w.obj.value.status.state == Completed
    ensures w.obj.value.status.SameNames(w.loop.task.status)
    ensures w.loop.task.status.claimName != ""
  {
    ReachableIsGood(cfg, w);
  }

  lemma LoopSparesRunning(cfg: Config, w: World, r: Response, hit: bool)
    requires Inv(cfg, w) && LoopPossible(cfg, w, r, hit) && InState(w.obj, Running)
    ensures w.ledger.live <= LoopEffect(w, r, hit).ledger.live
  {
  }

  lemma SubSparesRecorded(cfg: Config, w: World, r: Response, hit: bool, lost: string)
    requires Inv(cfg, w) && SubPossible(w, r, hit, lost)
    ensures Recorded(w.obj) * w.ledger.live <= SubEffect(w, r, hit, lost).ledger.live
  {
    if w.sub.SWrite? { RunningWrite(cfg, w, r, hit, lost); }
  }

  /** No step of any agent takes the sandbox away from a task that is stored as Running. */
  lemma RunningKeepsItsSandbox(cfg: Config, w: World, step: Step)
    requires Reachable(cfg, w) && Enabled(cfg, w, step) && InState(w.obj, Running)
    ensures w.obj.value.status.claimName in w.ledger.live
    ensures w.obj.value.status.claimName in Apply(cfg, w, step).ledger.live
  {
    ReachableIsGood(cfg, w);
    match step
    case Loop(r, hit) => LoopSparesRunning(cfg, w, r, hit);
    case Sub(r, hit, lost) => SubSparesRecorded(cfg, w, r, hit, lost);
    case Callback(i, r, hit) => CallbackMoves(cfg, w, i, r, hit);
    case _ =>
  }

  // ----- single submitter -----

  /** activeTasks holds an entry exactly while a goroutine is live or about to be spawned; an entry is
      never overwritten, a second goroutine is never started, and a goroutine that cleans up removes
      the entry made for itself. */
  lemma SingleSubmitter(cfg: Config, w: World)
    requires Reachable(cfg, w)
    ensures w.reg.Some? <==> w.sub != SNone || w.loop.LSpawn?
    ensures w.loop.LInsert? ==> w.reg.None? && w.sub == SNone
    ensures w.loop.LSpawn? ==> w.sub == SNone
    ensures w.sub.SRemove? ==> w.reg == Some(w.subId)
  {
    ReachableIsGood(cfg, w);
  }

  // ----- end to end -----

  /** The listener answers 200 only after the answer was posted, successfully, and Completed was committed. */
  lemma SuccessMeansCompleted(cfg: Config, w: World, i: nat)
    requires Reachable(cfg, w) && i < |w.cbs| && w.cbs[i] == CReplied(200)
    ensures Finished(w.obj) && i in w.answers.delivered
  {
    ReachableIsGood(cfg, w);
    assert CbOk(w.obj, w.cbs[i]);
    assert HandlerOk(w.answers, i, w.cbs[i]);
  }

  /** With faithful sandboxes the loop's "pod succeeded" branch only ever runs on a task that is
      already Completed or deleted: its write cannot take effect. */
  lemma ExitZeroBranchNeverCommits(cfg: Config, w: World, r: Response, hit: bool)
    requires Reachable(cfg, w) && cfg.faithful
    requires w.loop.LWrite? && w.loop.after.AfterReturn? && w.loop.task.status.state == Completed
    requires Enabled(cfg, w, Loop(r, hit))
    ensures Finished(w.obj) && !hit && Apply(cfg, w, Loop(r, hit)).obj == w.obj
  {
    ReachableIsGood(cfg, w);
  }

  /** A runner makes at most five tries. If it leaves with 0, its answer was posted and the task is Completed
      or deleted from then on. */
  lemma ExitedPodMeansCompleted(cfg: Config, w: World, i: nat)
    requires Reachable(cfg, w) && i < |w.runners|
    ensures !w.runners[i].RExited? ==> w.runners[i].tries < MAX_TRIES
    ensures w.runners[i].RExited? && w.runners[i].code == 0 ==>
              && Finished(w.obj)
              && exists j: nat :: j < |w.cbs| && w.cbs[j] == CReplied(200) && j in w.answers.delivered
  {
    ReachableIsGood(cfg, w);
    assert RunnerOk(w.cbs, w.runners[i]);
    if w.runners[i].RExited? && w.runners[i].code == 0 {
      var j: nat :| j < |w.cbs| && w.cbs[j] == CReplied(200);
      SuccessMeansCompleted(cfg, w, j);
    }
  }
}
