/** What every run guarantees about the SandboxClaims made for a task. */
module ClaimLedger {
  import opened AgentTasks
  import opened Protocol
  import opened World
  import opened Invariant
  import opened Preservation
  import opened Lifecycle
  import SampleRuns

  ghost predicate ExactlyOne(flags: seq<bool>) {
    && (exists i :: 0 <= i < |flags| && flags[i])
    && (forall i, j :: 0 <= i < j < |flags| ==> !(flags[i] && flags[j]))
  }

  /** The places where a claim can be accounted for, in a fixed order. */
  ghost function Accounts(cfg: Config, obj: Option<AgentTask>, sub: SubPc, L: Ledger, c: string): seq<bool> {
    [c !in L.live,                            // deleted
     c in L.live && c in Recorded(obj),       // named in the stored status
     c in Held(sub, L.recorded),              // with the submission goroutine
     c in L.lostCreates,                      // orphaned: creation reported as failed
     c in Abandoned(cfg, L),                  // orphaned: the task could not be submitted
     c in L.lostWrites - L.recorded,          // orphaned: the Running write never landed
     c in L.live && c in L.failedCleanups]    // orphaned: the cleanup delete failed
  }

  lemma AccountsAreApart(cfg: Config, obj: Option<AgentTask>, sub: SubPc, L: Ledger, c: string)
    requires LedgerOk(cfg, obj, sub, L) && c in L.created
    ensures ExactlyOne(Accounts(cfg, obj, sub, L, c))
  {
    var a := Accounts(cfg, obj, sub, L, c);
    assert c in L.live ==> c in L.recorded + Held(sub, L.recorded) + Orphans(cfg, L);
    assert a[0] || a[1] || a[2] || a[3] || a[4] || a[5] || a[6];
  }

  /** Every claim ever created is in exactly one account. A deleted claim may still be named, but only by a
      Failed or Completed task. With the submission's error path repaired, a claim whose task was refused is
      deleted, still with the goroutine, or left over by a failed delete. */
  lemma LedgerIsExact(cfg: Config, w: World, c: string)
    requires Reachable(cfg, w) && c in w.ledger.created
    ensures ExactlyOne(Accounts(cfg, w.obj, w.sub, w.ledger, c))
    ensures c in Recorded(w.obj) && c !in w.ledger.live ==> InState(w.obj, Failed) || InState(w.obj, Completed)
    ensures cfg.repaired && c in w.ledger.submitErrors ==>
              var a := Accounts(cfg, w.obj, w.sub, w.ledger, c); a[0] || a[2] || a[6]
  {
    ReachableIsGood(cfg, w);
    AccountsAreApart(cfg, w.obj, w.sub, w.ledger, c);
  }

  /** A claim outlives its task's goroutine unrecorded exactly for one of the four causes. */
  lemma OrphansAreExact(cfg: Config, w: World, c: string)
    requires Reachable(cfg, w)
    ensures c in w.ledger.live && c !in Recorded(w.obj) && c !in Held(w.sub, w.ledger.recorded)
            <==> c in Orphans(cfg, w.ledger)
  {
    ReachableIsGood(cfg, w);
  }

  /** With the error path repaired, a submission error leaves a claim behind only through a failed delete. */
  lemma RepairedErrorsLeaveFailedDeletes(cfg: Config, w: World, c: string)
    requires Reachable(cfg, w) && cfg.repaired && c in w.ledger.submitErrors
    requires c in w.ledger.live && c !in Held(w.sub, w.ledger.recorded)
    ensures c in w.ledger.failedCleanups
  {
    ReachableIsGood(cfg, w);
  }

  // ----- recorded claims -----

  lemma LoopForgetsOnlyTheGone(cfg: Config, w: World, r: Response, hit: bool, c: string)
    requires Inv(cfg, w) && LoopPossible(cfg, w, r, hit)
    requires c in Recorded(w.obj) && c !in Recorded(LoopEffect(w, r, hit).obj)
    ensures c !in w.ledger.live && LoopEffect(w, r, hit).ledger.live <= w.ledger.live
  {
    if w.loop.LWrite? {
      CommitShape(cfg, w, w.loop.task, w.loop.second, hit);
    }
  }

  lemma OthersForgetNothing(cfg: Config, w: World, step: Step)
    requires Inv(cfg, w) && Enabled(cfg, w, step) && !step.Loop?
    ensures Recorded(w.obj) <= Recorded(Apply(cfg, w, step).obj)
  {
    match step
    case Sub(r, hit, lost) =>
      SubMoves(cfg, w, r, hit, lost);
      if w.sub.SWrite? { RunningWrite(cfg, w, r, hit, lost); }
    case Callback(i, r, hit) => CallbackMoves(cfg, w, i, r, hit);
    case _ =>
  }

  /** A stored claim name is cleared, or its task deleted, only after that claim is gone. */
  lemma RecordedIsNeverForgotten(cfg: Config, w: World, step: Step, c: string)
    requires Reachable(cfg, w) && Enabled(cfg, w, step)
    requires c in Recorded(w.obj) && c !in Recorded(Apply(cfg, w, step).obj)
    ensures c !in w.ledger.live && c !in Apply(cfg, w, step).ledger.live
  {
    ReachableIsGood(cfg, w);
    if step.Loop? {
      LoopForgetsOnlyTheGone(cfg, w, step.r, step.hit, c);
    } else {
      OthersForgetNothing(cfg, w, step);
    }
  }

  // ----- orphans stay -----

  lemma LoopKeepsOrphans(cfg: Config, w: World, r: Response, hit: bool)
    requires Inv(cfg, w) && LoopPossible(cfg, w, r, hit)
    ensures Orphans(cfg, w.ledger) <= Orphans(cfg, LoopEffect(w, r, hit).ledger)
  {
    LoopMoves(cfg, w, r, hit);
    if w.loop.LClose? {
      assert w.loop.task.status.claimName in Recorded(w.obj);
    } else {
      LoopClosesOnlyAtClose(w, r, hit);
    }
  }

  lemma LoopClosesOnlyAtClose(w: World, r: Response, hit: bool)
    requires (w.loop.LWrite? && hit ==> Current(w.obj, w.loop.task)) && !w.loop.LClose?
    ensures LoopEffect(w, r, hit).ledger.live == w.ledger.live
  {
  }

  lemma WriteKeepsOrphans(cfg: Config, w: World, r: Response, hit: bool, lost: string)
    requires Inv(cfg, w) && SubPossible(w, r, hit, lost) && w.sub.SWrite?
    ensures Orphans(cfg, w.ledger) <= Orphans(cfg, SubEffect(w, r, hit, lost).ledger)
  {
    RunningWrite(cfg, w, r, hit, lost);
  }

  lemma SubKeepsOrphans(cfg: Config, w: World, r: Response, hit: bool, lost: string)
    requires Inv(cfg, w) && SubPossible(w, r, hit, lost)
    ensures Orphans(cfg, w.ledger) <= Orphans(cfg, SubEffect(w, r, hit, lost).ledger)
  {
    if w.sub.SWrite? { WriteKeepsOrphans(cfg, w, r, hit, lost); }
  }

  lemma StepKeepsOrphans(cfg: Config, w: World, step: Step)
    requires Inv(cfg, w) && Enabled(cfg, w, step)
    ensures Orphans(cfg, w.ledger) <= Orphans(cfg, Apply(cfg, w, step).ledger)
  {
    match step
    case Loop(r, hit) => LoopKeepsOrphans(cfg, w, r, hit);
    case Sub(r, hit, lost) => SubKeepsOrphans(cfg, w, r, hit, lost);
    case Callback(i, r, hit) => CallbackMoves(cfg, w, i, r, hit);
    case _ =>
  }

  /** Whatever its cause, an orphaned claim is live, and an orphan, in every continuation. */
  lemma {:induction false} OrphansStay(cfg: Config, w: World, more: seq<Step>, c: string)
    requires Reachable(cfg, w) && c in Orphans(cfg, w.ledger) && RunFrom(cfg, w, more).Some?
    ensures var v := RunFrom(cfg, w, more).value; c in Orphans(cfg, v.ledger) && c in v.ledger.live
  {
    ReachableRun(cfg, w, more);
    ReachableIsGood(cfg, RunFrom(cfg, w, more).value);
    if more != [] {
      var before := more[..|more| - 1];
      OrphansStay(cfg, w, before, c);
      ReachableRun(cfg, w, before);
      ReachableIsGood(cfg, RunFrom(cfg, w, before).value);
      StepKeepsOrphans(cfg, RunFrom(cfg, w, before).value, more[|more| - 1]);
    }
  }

  /** Once a task is deleted and no goroutine is left, no claim is live unless one of the four events happened. */
  lemma NothingIsLeftBehind(cfg: Config, w: World)
    requires Reachable(cfg, w) && w.obj.None? && w.sub.SNone?
    ensures w.ledger.live == Orphans(cfg, w.ledger)
    ensures var L := w.ledger;
            L.lostCreates == L.submitErrors == L.lostWrites == L.failedCleanups == {} ==> L.live == {}
  {
    ReachableIsGood(cfg, w);
    assert Held(w.sub, w.ledger.recorded) == {} && Recorded(w.obj) == {};
  }

  // ----- the error path of the submission, as written and repaired -----

  lemma RefusedClaim(cfg: Config, obj: Option<AgentTask>, sub: SubPc, L: Ledger)
    requires LedgerOk(cfg, obj, sub, L) && sub.SSubmit?
    ensures var c := sub.handle.claim;
            && c != "" && c in L.live && c !in L.recorded
            && (c in Orphans(cfg, L.(submitErrors := L.submitErrors + {c})) <==> !cfg.repaired)
  {
  }

  lemma RefusedStep(cfg: Config, w: World, r: Response, hit: bool, lost: string)
    requires w.sub.SSubmit? && !r.Done? && Enabled(cfg, w, Sub(r, hit, lost))
    ensures var v := Apply(cfg, w, Sub(r, hit, lost));
            && v.ledger == w.ledger.(submitErrors := w.ledger.submitErrors + {w.sub.handle.claim})
            && v.sub == if cfg.repaired then SClose(w.sub.task, w.sub.handle) else SSleep(w.sub.task.name)
  {
  }

  lemma RefusedPath(cfg: Config, w: World, r: Response, hit: bool, lost: string)
    requires LedgerOk(cfg, w.obj, w.sub, w.ledger) && w.sub.SSubmit? && !r.Done?
    requires Enabled(cfg, w, Sub(r, hit, lost))
    ensures var c, v := w.sub.handle.claim, Apply(cfg, w, Sub(r, hit, lost));
            && c in v.ledger.live
            && (cfg.repaired <==> SubAct(v.sub) == CloseClaim(c))
            && (cfg.repaired <==> c in Held(v.sub, v.ledger.recorded))
            && (!cfg.repaired <==> c in Orphans(cfg, v.ledger))
  {
    RefusedClaim(cfg, w.obj, w.sub, w.ledger);
    RefusedStep(cfg, w, r, hit, lost);
  }

  /** With the claim `c` in hand and SubmitTask failing, the source as written goes on without ever
      asking for the claim's deletion; the repaired form asks for it next. */
  lemma SubmitErrorPath(cfg: Config, w: World, r: Response, hit: bool, lost: string)
    requires Reachable(cfg, w) && w.sub.SSubmit? && !r.Done?
    requires Enabled(cfg, w, Sub(r, hit, lost))
    ensures var c, v := w.sub.handle.claim, Apply(cfg, w, Sub(r, hit, lost));
            && c in v.ledger.live
            && (cfg.repaired <==> SubAct(v.sub) == CloseClaim(c))
            && (cfg.repaired <==> c in Held(v.sub, v.ledger.recorded))
            && (!cfg.repaired <==> c in Orphans(cfg, v.ledger))
  {
    ReachableIsGood(cfg, w);
    RefusedPath(cfg, w, r, hit, lost);
  }

  /** As written, a claim whose task could not be submitted stays live for ever. */
  lemma SubmitErrorLeaksForever(cfg: Config, w: World, more: seq<Step>, c: string)
    requires Reachable(cfg, w) && !cfg.repaired && c in w.ledger.submitErrors && RunFrom(cfg, w, more).Some?
    ensures c in RunFrom(cfg, w, more).value.ledger.live
  {
    OrphansStay(cfg, w, more, c);
  }

  /** A run that ends in such a leak, for every valid spec. */
  lemma LeakIsReachable(cfg: Config, name: string, meta: Metadata, spec: Spec) returns (w: World)
    requires !cfg.repaired && ValidSpec(spec)
    ensures Reachable(cfg, w) && w.sub.SSleep? && "c" in Orphans(cfg, w.ledger)
  {
    w := SampleRuns.Provisioned(cfg, name, meta, spec);
    w := Advance(cfg, w, Sub(GotTokens(Tokens("t", "g")), false, ""));
    w := Advance(cfg, w, Sub(Failure, false, ""));
    assert "c" in w.ledger.submitErrors;
  }
}
