/** The Running write of a submission goroutine against the other writers of the task. */
module RunningWrites {
  import opened AgentTasks
  import opened Protocol
  import opened World
  import opened Invariant
  import opened Preservation
  import opened Lifecycle
  import ClaimLedger
  import SampleRuns

  /** The claim that a goroutine is about to write into the status. */
  ghost function Claim(w: World): string
    requires w.sub.SWrite?
  {
    w.sub.task.status.claimName
  }

  // ----- a stale write -----

  /** The goroutine still stands before its Running write, with a version that is no longer stored. */
  ghost predicate Stale(w: World, task: AgentTask) {
    w.sub.SWrite? && w.sub.task == task && !Current(w.obj, task)
  }

  /** The claim is not recorded, and its goroutine can only fail to record it or has already failed. */
  ghost predicate Lost(cfg: Config, w: World, task: AgentTask) {
    && task.status.claimName !in w.ledger.recorded
    && (Stale(w, task) || task.status.claimName in Orphans(cfg, w.ledger))
  }

  lemma LostIsLive(cfg: Config, w: World, task: AgentTask)
    requires Inv(cfg, w) && Lost(cfg, w, task)
    ensures task.status.claimName in w.ledger.live
  {
  }

  lemma StaleLoopStep(cfg: Config, w: World, r: Response, hit: bool, task: AgentTask)
    requires Inv(cfg, w) && LoopPossible(cfg, w, r, hit)
    requires Stale(w, task) && task.status.claimName !in w.ledger.recorded
    ensures Lost(cfg, Apply(cfg, w, Loop(r, hit)), task)
  {
    LoopMoves(cfg, w, r, hit);
    LoopKeepsRegistry(cfg, w, r, hit);
  }

  lemma StaleCallbackStep(cfg: Config, w: World, i: nat, r: Response, hit: bool, task: AgentTask)
    requires Inv(cfg, w) && CbPossible(w, i, r, hit)
    requires Stale(w, task) && task.status.claimName !in w.ledger.recorded
    ensures Lost(cfg, Apply(cfg, w, Callback(i, r, hit)), task)
  {
    CallbackMoves(cfg, w, i, r, hit);
  }

  lemma StaleStep(cfg: Config, w: World, step: Step, task: AgentTask)
    requires Inv(cfg, w) && Enabled(cfg, w, step) && !step.Sub?
    requires Stale(w, task) && task.status.claimName !in w.ledger.recorded
    ensures Lost(cfg, Apply(cfg, w, step), task)
  {
    match step
    case Loop(r, hit) => StaleLoopStep(cfg, w, r, hit, task);
    case Callback(i, r, hit) => StaleCallbackStep(cfg, w, i, r, hit, task);
    case _ =>
  }

  lemma StaleAttempt(cfg: Config, w: World, r: Response, hit: bool, lost: string, task: AgentTask)
    requires Inv(cfg, w) && SubPossible(w, r, hit, lost)
    requires Stale(w, task) && task.status.claimName !in w.ledger.recorded
    ensures Lost(cfg, Apply(cfg, w, Sub(r, hit, lost)), task)
  {
    RunningWrite(cfg, w, r, hit, lost);
  }

  lemma OrphanStep(cfg: Config, w: World, step: Step, task: AgentTask)
    requires Good(cfg, w) && Enabled(cfg, w, step) && task.status.claimName in Orphans(cfg, w.ledger)
    ensures Lost(cfg, Apply(cfg, w, step), task)
  {
    ClaimLedger.StepKeepsOrphans(cfg, w, step);
    StepKeepsInv(cfg, w, step);
  }

  /** If the task was moved on before the Running write, the write's claim is lost: whatever happens afterwards,
      it is live and recorded nowhere, and once the attempts are over it is an orphan. */
  lemma {:induction false} StaleWriteOrphans(cfg: Config, w: World, more: seq<Step>, task: AgentTask)
    requires Reachable(cfg, w) && Stale(w, task) && task.status.claimName !in w.ledger.recorded
    requires RunFrom(cfg, w, more).Some?
    ensures var c, v := task.status.claimName, RunFrom(cfg, w, more).value;
            && c in v.ledger.live && c !in v.ledger.recorded
            && (c in Orphans(cfg, v.ledger) || Stale(v, task))
  {
    var v := RunFrom(cfg, w, more).value;
    if more != [] {
      var before, last := more[..|more| - 1], more[|more| - 1];
      StaleWriteOrphans(cfg, w, before, task);
      ReachableRun(cfg, w, before);
      LostAfter(cfg, RunFrom(cfg, w, before).value, last, task);
    }
    ReachableRun(cfg, w, more);
    ReachableIsGood(cfg, v);
    LostIsLive(cfg, v, task);
  }

  lemma LostAfter(cfg: Config, w: World, step: Step, task: AgentTask)
    requires Reachable(cfg, w) && Lost(cfg, w, task) && Enabled(cfg, w, step)
    ensures Lost(cfg, Apply(cfg, w, step), task)
  {
    ReachableIsGood(cfg, w);
    if task.status.claimName in Orphans(cfg, w.ledger) {
      OrphanStep(cfg, w, step, task);
    } else if step.Sub? {
      StaleAttempt(cfg, w, step.r, step.hit, step.lost, task);
    } else {
      StaleStep(cfg, w, step, task);
    }
  }

  /** The claim of a Running write that is still to come, or to be repeated, is ever recorded only if it already
      is, or the version read is still stored; in both cases it can be. */
  lemma RecordedIffCurrent(cfg: Config, w: World)
    requires Reachable(cfg, w) && w.sub.SWrite?
    ensures (exists v :: Leads(cfg, w, v) && Claim(w) in v.ledger.recorded)
            <==> Claim(w) in w.ledger.recorded || Current(w.obj, w.sub.task)
  {
    Stay(cfg, w);
    if Claim(w) !in w.ledger.recorded && Current(w.obj, w.sub.task) {
      ReachableIsGood(cfg, w);
      RunningWrite(cfg, w, Failure, true, "");
      var v := Proceed(cfg, w, w, Sub(Failure, true, ""));
      assert Leads(cfg, w, v) && Claim(w) in v.ledger.recorded;
    } else if Claim(w) !in w.ledger.recorded {
      forall v | Leads(cfg, w, v) ensures Claim(w) !in v.ledger.recorded {
        var more :| RunFrom(cfg, w, more) == Some(v);
        StaleWriteOrphans(cfg, w, more, w.sub.task);
      }
    }
  }

  // ----- the race is real -----

  /** The sandbox has the task and the token that was issued for it; its Running write comes next. */
  lemma Handed(cfg: Config, name: string, meta: Metadata, spec: Spec) returns (w: World)
    requires ValidSpec(spec)
    ensures Reachable(cfg, w) && w.answers.task == name && w.answers.tokens == map[name := "t"]
    ensures var task := SampleRuns.StartedTask(name, meta, spec);
            && w.obj == Some(task)
            && w.sub == SWrite(WithSandbox(task, SampleRuns.HANDLE), false)
            && w.ledger == Ledger({"c"}, {"c"}, {}, {}, {}, {}, {})
            && w.cbs == []
  {
    w := SampleRuns.Provisioned(cfg, name, meta, spec);
    w := SampleRuns.Issues(cfg, w, w.obj.value, "t");
    w := Submitted(cfg, w, w.obj.value);
  }

  /** A callback with this token, about to use it up. */
  lemma Called(cfg: Config, name: string, meta: Metadata, spec: Spec) returns (w: World)
    requires ValidSpec(spec)
    ensures Reachable(cfg, w)
    ensures var task := SampleRuns.StartedTask(name, meta, spec);
            && w.obj == Some(task)
            && w.sub == SWrite(WithSandbox(task, SampleRuns.HANDLE), false)
            && w.ledger == Ledger({"c"}, {"c"}, {}, {}, {}, {}, {})
            && w.cbs == [CConsume(CallbackRequest(name, "t", "done"), task)]
  {
    w := Handed(cfg, name, meta, spec);
    w := SampleRuns.Calls(cfg, w, CallbackRequest(name, "t", "done"), w.obj.value);
    w := SampleRuns.Verifies(cfg, w, 0);
  }

  lemma Submitted(cfg: Config, w: World, task: AgentTask) returns (v: World)
    requires Reachable(cfg, w) && w.sub == STokens(task, SampleRuns.HANDLE)
    ensures Reachable(cfg, v)
    ensures v == w.(sub := SWrite(WithSandbox(task, SampleRuns.HANDLE), false), accepted := v.accepted)
  {
    v := Advance(cfg, w, Sub(GotTokens(Tokens("t", "g")), false, ""));
    v := Advance(cfg, v, Sub(Done, false, ""));
  }

  lemma Commits(cfg: Config, w: World, task: AgentTask) returns (v: World)
    requires Reachable(cfg, w) && w.obj == Some(task) && task.status.state == Started && task.status.claimName == ""
    requires |w.cbs| == 1 && w.cbs[0].CWrite? && !w.cbs[0].second && w.cbs[0].task == task.WithState(Completed)
    ensures Reachable(cfg, v) && v.cbs == [CReplied(200)]
    ensures v.obj == Some(task.WithState(Completed).(version := task.version + 1))
    ensures v == w.(obj := v.obj, changes := w.changes + 1, cbs := v.cbs)
  {
    v := Advance(cfg, w, Callback(0, GotTask(task.WithState(Completed).(version := task.version + 1)), true));
    assert v.cbs == [CReplied(200)];
  }

  /** The handler uses up the token, posts the comment and completes the task. */
  lemma Completes(cfg: Config, w: World, task: AgentTask) returns (v: World)
    requires Reachable(cfg, w) && w.obj == Some(task) && task.status.state == Started && task.status.claimName == ""
    requires |w.cbs| == 1 && w.cbs[0].CConsume? && w.cbs[0].task == task
    ensures Reachable(cfg, v) && v.cbs == [CReplied(200)]
    ensures v.obj == Some(task.WithState(Completed).(version := task.version + 1))
    ensures v == w.(obj := v.obj, changes := w.changes + 1, cbs := v.cbs, answers := v.answers)
  {
    v := SampleRuns.Consumes(cfg, w, 0);
    v := Advance(cfg, v, Callback(0, Done, false));
    v := Commits(cfg, v, task);
  }

  /** Both attempts of the Running write report an error. */
  lemma FailsTwice(cfg: Config, w: World) returns (v: World)
    requires w.sub.SWrite? && !w.sub.second
    ensures Leads(cfg, w, v) && v.sub.SRemove?
    ensures v.ledger == w.ledger.(lostWrites := w.ledger.lostWrites + {Claim(w)})
  {
    Stay(cfg, w);
    v := Proceed(cfg, w, w, Sub(Failure, false, ""));
    v := Proceed(cfg, w, v, Sub(Failure, false, ""));
  }

  /** For every valid spec the callback may complete the task before its Running write. Then the write fails
      twice, and the claim of a task that was done properly is left behind. */
  lemma CallbackOvertakesRunningWrite(cfg: Config, name: string, meta: Metadata, spec: Spec) returns (w: World, v: World)
    requires ValidSpec(spec)
    ensures Reachable(cfg, w) && InState(w.obj, Completed) && w.cbs == [CReplied(200)]
    ensures w.sub.SWrite? && !w.sub.second && Stale(w, w.sub.task) && Claim(w) !in w.ledger.recorded
    ensures Leads(cfg, w, v) && v.sub.SRemove? && Claim(w) in Orphans(cfg, v.ledger)
  {
    w := Called(cfg, name, meta, spec);
    w := Completes(cfg, w, w.obj.value);
    v := FailsTwice(cfg, w);
  }
}
