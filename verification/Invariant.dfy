/** The atomic machine that the stored status follows, and the invariant that makes every agent's
    stale decisions follow it. */
module Invariant {
  import opened AgentTasks
  import opened Protocol
  import opened World

  // ----- the atomic machine -----

  ghost predicate LoopEdge(cfg: Config, spec: Spec, a: Status, b: Status) {
    || (a.state == Unset && b == a.(state := Pending))
    || (a.state == Pending && ValidSpec(spec) && b == a.(state := Started))
    || (a.state == Running && b == a.(state := Failed))
    || (a.state == Running && b == a.(state := Completed))
    || (a.state == Failed && a.claimName != "" && b == a.Cleared())
    || (a.state == Failed && a.claimName == "" && a.retries < cfg.maxRetries
        && b == a.(retries := a.retries + 1, state := Started))
  }

  ghost predicate SubmitEdge(a: Status, b: Status) {
    && a.state == Started
    && b == a.(state := Running, claimName := b.claimName, sandboxName := b.sandboxName, podName := b.podName)
    && b.HasAllNames()
  }

  ghost predicate AnswerEdge(a: Status, b: Status) { b == a.(state := Completed) }

  /** One edge of the atomic machine on the stored object: a status edge, or the deletion of a Completed task. */
  ghost predicate AtomicEdge(cfg: Config, before: Option<AgentTask>, after: Option<AgentTask>) {
    && before.Some?
    && (after.None? ==> before.value.status.state == Completed)
    && (after.Some? ==>
          && after.value == before.value.(status := after.value.status, version := before.value.version + 1)
          && after.value.status != before.value.status
          && var a, b := before.value.status, after.value.status;
             LoopEdge(cfg, before.value.spec, a, b) || SubmitEdge(a, b) || AnswerEdge(a, b))
  }

  ghost function Stage(s: Status): nat {
    match s.state
    case Unset => 7
    case Pending => 6
    case Started => 5
    case Running => 4
    case Failed => if s.claimName != "" then 3 else 2
    case Completed => 1
    case Deleted => 0
    case Other(_) => 0
  }

  ghost function Measure(cfg: Config, obj: Option<AgentTask>): int {
    match obj
    case None => 0
    case Some(task) => 4 * (cfg.maxRetries - task.status.retries) + Stage(task.status)
  }

  // ----- the stored object -----

  ghost predicate StatusOk(cfg: Config, s: Status, runs: nat) {
    && 0 <= s.retries <= cfg.maxRetries
    && match s.state
       case Unset => s.HasNoNames() && s.retries == runs == 0
       case Pending => s.HasNoNames() && s.retries == runs == 0
       case Started => s.HasNoNames() && runs == s.retries
       case Running => s.HasAllNames() && runs == s.retries + 1
       case Failed => (s.HasNoNames() || s.HasAllNames()) && runs == s.retries + 1
       case Completed => (s.HasNoNames() || s.HasAllNames()) && s.retries <= runs <= s.retries + 1
       case Deleted => false
       case Other(_) => false
  }

  ghost predicate ObjOk(cfg: Config, obj: Option<AgentTask>, changes: nat, runs: nat) {
    && changes + Measure(cfg, obj) <= 4 * cfg.maxRetries + 7
    && runs <= cfg.maxRetries + 1
    && (obj.Some? ==> StatusOk(cfg, obj.value.status, runs))
  }

  // ----- what an agent's copy of the task says about the stored one -----

  ghost predicate Behind(obj: Option<AgentTask>, task: AgentTask) {
    obj.Some? ==> task.version <= obj.value.version
  }

  /** A copy as read: still exact while the version has not moved. */
  ghost predicate Snapshot(obj: Option<AgentTask>, task: AgentTask) {
    Behind(obj, task) && (Current(obj, task) ==> obj.value == task)
  }

  /** A copy with an edited status, about to be written. */
  ghost predicate Edited(obj: Option<AgentTask>, task: AgentTask) {
    Behind(obj, task) && (Current(obj, task) ==> task == obj.value.(status := task.status))
  }

  ghost predicate Finished(obj: Option<AgentTask>) {
    obj.Some? ==> obj.value.status.state == Completed
  }

  ghost predicate InState(obj: Option<AgentTask>, s: TaskState) {
    obj.Some? && obj.value.status.state == s
  }

  // ----- the reconcile loop -----

  ghost predicate WriteOk(cfg: Config, obj: Option<AgentTask>, live: set<string>, task: AgentTask, after: Continuation) {
    && Edited(obj, task)
    && (Current(obj, task) ==>
          var a, b := obj.value.status, task.status;
          match after
          case AfterInit => a.state == Unset && b == a.(state := Pending)
          case AfterClear => a.state == Failed && a.claimName != "" && b == a.Cleared() && a.claimName !in live
          case AfterReturn => LoopEdge(cfg, obj.value.spec, a, b) && (a.state == Failed ==> a.claimName == ""))
    && (cfg.faithful && after.AfterReturn? && task.status.state == Completed ==> Finished(obj) && !Current(obj, task))
  }

  ghost predicate CloseOk(obj: Option<AgentTask>, task: AgentTask) {
    && obj.Some?
    && Snapshot(obj, task)
    && task.status.claimName != ""
    && obj.value.status.SameNames(task.status)
    && (InState(obj, Completed) || (InState(obj, Failed) && task.status.state == Failed))
    && (task.status.state == Failed || task.status.state == Completed)
  }

  ghost predicate LoopOk(cfg: Config, obj: Option<AgentTask>, live: set<string>, loop: LoopPc) {
    match loop
    case LWrite(task, _, after) => WriteOk(cfg, obj, live, task, after)
    case LPod(task) => Snapshot(obj, task) && task.status.state == Running
    case LClose(task) => CloseOk(obj, task)
    case LDelete(task) => InState(obj, Completed) && obj.value.status.claimName !in live
    case _ => true
  }

  ghost predicate RegOk(reg: Option<nat>, loop: LoopPc, sub: SubPc, subId: nat) {
    && (reg.Some? <==> sub != SNone || loop.LSpawn?)
    && (sub != SNone ==> reg == Some(subId))
    && (loop.LSpawn? ==> sub == SNone)
    && (loop.LInsert? ==> reg.None?)
  }

  // ----- the submission goroutine -----

  /** The claim a goroutine is responsible for. */
  ghost function ClaimOf(sub: SubPc): string {
    match sub
    case SClaimTick(_, claim) => claim
    case SClaim(_, claim) => claim
    case SSandboxTick(_, claim, _) => claim
    case SSandbox(_, claim, _) => claim
    case SCleanup(_, claim) => claim
    case SPodIP(_, handle) => handle.claim
    case STokens(_, handle) => handle.claim
    case SSubmit(_, handle, _) => handle.claim
    case SClose(_, handle) => handle.claim
    case SWrite(task, _) => task.status.claimName
    case _ => ""
  }

  ghost predicate Responsible(sub: SubPc) {
    !(sub.SNone? || sub.SPoll? || sub.SGet? || sub.SCreate? || sub.SSleep? || sub.SRemove?)
  }

  ghost predicate HandleOk(h: Handle) { h.sandbox != "" && h.pod != "" }

  ghost predicate StartedCopy(obj: Option<AgentTask>, task: AgentTask) {
    Snapshot(obj, task) && task.status.state == Started
  }

  ghost predicate SubOk(obj: Option<AgentTask>, recorded: set<string>, sub: SubPc) {
    match sub
    case SCreate(task) => StartedCopy(obj, task)
    case SClaimTick(task, _) => StartedCopy(obj, task)
    case SClaim(task, _) => StartedCopy(obj, task)
    case SSandboxTick(task, _, sandbox) => StartedCopy(obj, task) && sandbox != ""
    case SSandbox(task, _, sandbox) => StartedCopy(obj, task) && sandbox != ""
    case SPodIP(task, h) => StartedCopy(obj, task) && HandleOk(h)
    case STokens(task, h) => StartedCopy(obj, task) && HandleOk(h)
    case SSubmit(task, h, _) => StartedCopy(obj, task) && HandleOk(h)
    case SWrite(task, second) =>
      && Edited(obj, task)
      && (Current(obj, task) ==> SubmitEdge(obj.value.status, task.status) && task.status.claimName !in recorded)
      && (task.status.claimName in recorded ==> second)
    case _ => true
  }

  // ----- callback handlers -----

  ghost predicate CbOk(obj: Option<AgentTask>, cb: CbPc) {
    match cb
    case CVerify(_, task) => Snapshot(obj, task)
    case CConsume(_, task) => Snapshot(obj, task)
    case CPost(_, task) => Snapshot(obj, task)
    case CWrite(_, task, _) => Edited(obj, task) && (Current(obj, task) ==> AnswerEdge(obj.value.status, task.status))
    case CReplied(code) => code == 200 ==> Finished(obj)
    case _ => true
  }

  ghost predicate CbsOk(obj: Option<AgentTask>, cbs: seq<CbPc>) {
    forall i :: 0 <= i < |cbs| ==> CbOk(obj, cbs[i])
  }

  // ----- the sandboxes' runners -----

  /** A runner that left with 0 had a call that was answered with 200. */
  ghost predicate RunnerOk(cbs: seq<CbPc>, pc: RunnerPc) {
    match pc
    case RReport(_, _, tries) => tries < MAX_TRIES
    case RWait(_, _, tries, call) => tries < MAX_TRIES && call < |cbs|
    case RExited(_, code) => code == 0 ==> CReplied(200) in cbs
  }

  ghost predicate RunnersOk(cbs: seq<CbPc>, runners: seq<RunnerPc>) {
    forall i :: 0 <= i < |runners| ==> RunnerOk(cbs, runners[i])
  }

  // ----- the claim ledger -----

  /** The claim named in the stored status. */
  ghost function Recorded(obj: Option<AgentTask>): set<string> {
    if obj.Some? && obj.value.status.claimName != "" then {obj.value.status.claimName} else {}
  }

  /** The claim a goroutine still has to hand over: it is responsible for it and it was never recorded. */
  ghost function Held(sub: SubPc, recorded: set<string>): set<string> {
    var c := ClaimOf(sub);
    if c == "" || c in recorded then {} else {c}
  }

  /** Claims left open by the submission error path as written. */
  ghost function Abandoned(cfg: Config, L: Ledger): set<string> {
    if cfg.repaired then {} else L.submitErrors
  }

  /** The four ways in which a claim comes to be live without anyone knowing it. */
  ghost function Orphans(cfg: Config, L: Ledger): set<string> {
    L.lostCreates + Abandoned(cfg, L) + (L.lostWrites - L.recorded) + (L.failedCleanups * L.live)
  }

  ghost predicate Apart(cfg: Config, L: Ledger) {
    && L.lostCreates !! L.recorded
    && L.lostCreates !! L.lostWrites
    && L.lostCreates !! L.failedCleanups
    && L.lostCreates !! L.submitErrors
    && Abandoned(cfg, L) !! L.recorded
    && Abandoned(cfg, L) !! L.lostWrites
    && Abandoned(cfg, L) !! L.failedCleanups
    && L.failedCleanups !! L.recorded
    && L.failedCleanups !! L.lostWrites
  }

  ghost predicate LedgerOk(cfg: Config, obj: Option<AgentTask>, sub: SubPc, L: Ledger) {
    && "" !in L.created
    && L.live <= L.created
    && L.recorded <= L.created
    && L.lostCreates <= L.created && L.submitErrors <= L.created && L.lostWrites <= L.created && L.failedCleanups <= L.created
    && Recorded(obj) <= L.recorded
    && L.recorded * L.live <= Recorded(obj)
    && (InState(obj, Running) ==> obj.value.status.claimName in L.live)
    && ClaimOf(sub) !in L.lostCreates + Abandoned(cfg, L) + L.lostWrites + L.failedCleanups
    && Held(sub, L.recorded) <= L.live
    && Orphans(cfg, L) <= L.live
    && L.live <= L.recorded + Held(sub, L.recorded) + Orphans(cfg, L)
    && Apart(cfg, L)
    && (ClaimOf(sub) != "" ==> ClaimOf(sub) in L.created)
    && (ClaimOf(sub) in L.recorded ==> sub.SWrite?)
    && (Responsible(sub) ==> ClaimOf(sub) != "")
  }

  ghost predicate Inv(cfg: Config, w: World) {
    && ObjOk(cfg, w.obj, w.changes, w.runs)
    && LoopOk(cfg, w.obj, w.ledger.live, w.loop)
    && RegOk(w.reg, w.loop, w.sub, w.subId)
    && SubOk(w.obj, w.ledger.recorded, w.sub)
    && CbsOk(w.obj, w.cbs)
    && LedgerOk(cfg, w.obj, w.sub, w.ledger)
    && RunnersOk(w.cbs, w.runners)
  }
}
