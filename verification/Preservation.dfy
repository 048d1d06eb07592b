/** Every step of every agent keeps the invariant, and moves the stored object by at most one
    edge of the atomic machine. */
module Preservation {
  import opened AgentTasks
  import opened Protocol
  import opened World
  import opened Invariant

  ghost predicate Edge(cfg: Config, spec: Spec, a: Status, b: Status) {
    LoopEdge(cfg, spec, a, b) || SubmitEdge(a, b) || AnswerEdge(a, b)
  }

  /** One edge keeps the stored status well formed and strictly lowers the measure. */
  lemma EdgeKeepsStatus(cfg: Config, spec: Spec, a: Status, b: Status, runs: nat)
    requires StatusOk(cfg, a, runs) && Edge(cfg, spec, a, b) && a != b
    ensures StatusOk(cfg, b, if b.state == Running && a.state != Running then runs + 1 else runs)
    ensures 4 * (cfg.maxRetries - b.retries) + Stage(b) < 4 * (cfg.maxRetries - a.retries) + Stage(a)
    ensures a.state != Completed && b.state != Unset
  {
  }

  /** The stored object either stays or takes one edge. */
  ghost predicate Moves(cfg: Config, before: Option<AgentTask>, after: Option<AgentTask>) {
    after == before || AtomicEdge(cfg, before, after)
  }

  /** The change counter counts the moves. */
  ghost predicate Counts(w: World, v: World) {
    v.changes == (if v.obj == w.obj then w.changes else w.changes + 1)
  }

  /** What a planned write does. */
  lemma CommitShape(cfg: Config, w: World, task: AgentTask, whole: bool, hit: bool)
    requires hit ==> Current(w.obj, task)
    requires Edited(w.obj, task) && ObjOk(cfg, w.obj, w.changes, w.runs)
    requires Current(w.obj, task) ==> Edge(cfg, w.obj.value.spec, w.obj.value.status, task.status)
    ensures var v := Commit(w, task, whole, hit);
            && Moves(cfg, w.obj, v.obj) && Counts(w, v)
            && ObjOk(cfg, v.obj, v.changes, v.runs)
            && v == w.(obj := v.obj, changes := v.changes, runs := v.runs, ledger := v.ledger)
            && v.ledger == (if v.obj == w.obj then w.ledger
                            else w.ledger.(recorded := w.ledger.recorded + Recorded(v.obj)))
            && (v.obj == w.obj ==> v == w)
            && (v.obj != w.obj ==> hit && v.obj == Some(w.obj.value.(status := task.status, version := task.version + 1)))
            && (hit ==> v.obj.Some? && v.obj.value.status == task.status)
  {
    if hit && Written(w.obj.value, task, whole) != w.obj.value {
      EdgeKeepsStatus(cfg, w.obj.value.spec, w.obj.value.status, task.status, w.runs);
    }
  }

  // ----- other agents' copies outlive a move -----

  lemma CbsOutliveMove(cfg: Config, before: Option<AgentTask>, after: Option<AgentTask>, cbs: seq<CbPc>)
    requires Moves(cfg, before, after) && CbsOk(before, cbs)
    ensures CbsOk(after, cbs)
  {
    forall i | 0 <= i < |cbs| ensures CbOk(after, cbs[i]) {
      assert CbOk(before, cbs[i]);
    }
  }

  lemma SubOutlivesMove(cfg: Config, before: Option<AgentTask>, after: Option<AgentTask>, recorded: set<string>, sub: SubPc)
    requires Moves(cfg, before, after) && SubOk(before, recorded, sub)
    ensures SubOk(after, recorded, sub)
  {
  }

  /** The moves of the agents other than the loop. */
  ghost predicate OtherMove(before: Option<AgentTask>, after: Option<AgentTask>) {
    || after == before
    || (before.Some? && after.Some?
        && after.value == before.value.(status := after.value.status, version := before.value.version + 1)
        && after.value.status != before.value.status
        && (SubmitEdge(before.value.status, after.value.status) || AnswerEdge(before.value.status, after.value.status)))
  }

  lemma LoopOutlivesMove(cfg: Config, before: Option<AgentTask>, after: Option<AgentTask>,
                         live: set<string>, live': set<string>, loop: LoopPc)
    requires OtherMove(before, after) && LoopOk(cfg, before, live, loop)
    requires Recorded(before) * live' <= live && "" !in live'
    ensures LoopOk(cfg, after, live', loop)
  {
    if after == before && before.Some? && before.value.status.claimName != "" {
      assert before.value.status.claimName in live' ==> before.value.status.claimName in live;
    }
    if before.Some? && InState(before, Completed) { assert after == before; }
  }

  // ----- steps of the reconcile loop -----

  lemma LoopWriteMoves(cfg: Config, w: World, r: Response, hit: bool)
    requires Inv(cfg, w) && LoopPossible(cfg, w, r, hit) && w.loop.LWrite?
    ensures var v := LoopEffect(w, r, hit);
            && Moves(cfg, w.obj, v.obj) && Counts(w, v)
            && ObjOk(cfg, v.obj, v.changes, v.runs)
            && v == w.(obj := v.obj, changes := v.changes, runs := v.runs)
            && (Finished(w.obj) ==> Finished(v.obj))
  {
    CommitShape(cfg, w, w.loop.task, w.loop.second, hit);
    var v := LoopEffect(w, r, hit);
    assert Recorded(v.obj) <= Recorded(w.obj);
    assert v.ledger.recorded == w.ledger.recorded;
  }

  /** The loop moves the object by its own edges and records no new claim. */
  lemma LoopMoves(cfg: Config, w: World, r: Response, hit: bool)
    requires Inv(cfg, w) && LoopPossible(cfg, w, r, hit)
    ensures var v := LoopEffect(w, r, hit);
            && Moves(cfg, w.obj, v.obj) && Counts(w, v)
            && ObjOk(cfg, v.obj, v.changes, v.runs)
            && v.ledger == w.ledger.(live := v.ledger.live)
            && (v.runners, v.cbs) == (w.runners, w.cbs)
            && (Finished(w.obj) ==> Finished(v.obj))
  {
    if w.loop.LWrite? {
      LoopWriteMoves(cfg, w, r, hit);
    }
  }

  lemma LoopLeavesRegistry(cfg: Config, w: World, r: Response, hit: bool)
    requires LoopPossible(cfg, w, r, hit)
    ensures var v := LoopEffect(w, r, hit);
            && v.reg == (if w.loop.LInsert? then Some(w.spawned) else w.reg)
            && (!w.loop.LSpawn? ==> v.sub == w.sub && v.subId == w.subId)
            && (w.loop.LSpawn? ==> v.sub.SPoll? && (w.reg.Some? ==> v.subId == w.reg.value))
    ensures LoopNext(cfg, w.loop, r).LSpawn? <==> w.loop.LInsert?
    ensures LoopNext(cfg, w.loop, r).LInsert? ==> w.reg.None?
  {
  }

  lemma LoopKeepsRegistry(cfg: Config, w: World, r: Response, hit: bool)
    requires RegOk(w.reg, w.loop, w.sub, w.subId) && LoopPossible(cfg, w, r, hit)
    ensures var v := Apply(cfg, w, Loop(r, hit));
            RegOk(v.reg, v.loop, v.sub, v.subId) && (w.loop.LSpawn? || v.sub == w.sub)
  {
    LoopLeavesRegistry(cfg, w, r, hit);
  }

  lemma LoopKeepsOthers(cfg: Config, w: World, r: Response, hit: bool)
    requires Inv(cfg, w) && LoopPossible(cfg, w, r, hit)
    ensures var v := Apply(cfg, w, Loop(r, hit));
            SubOk(v.obj, v.ledger.recorded, v.sub) && CbsOk(v.obj, v.cbs)
  {
    var v := Apply(cfg, w, Loop(r, hit));
    LoopMoves(cfg, w, r, hit);
    LoopKeepsRegistry(cfg, w, r, hit);
    SubOutlivesMove(cfg, w.obj, v.obj, w.ledger.recorded, w.sub);
    CbsOutliveMove(cfg, w.obj, v.obj, w.cbs);
  }

  lemma LoopKeepsLedger(cfg: Config, w: World, r: Response, hit: bool)
    requires Inv(cfg, w) && LoopPossible(cfg, w, r, hit)
    ensures var v := LoopEffect(w, r, hit); LedgerOk(cfg, v.obj, v.sub, v.ledger)
  {
    if w.loop.LWrite? {
      LoopWriteMoves(cfg, w, r, hit);
      CommitShape(cfg, w, w.loop.task, w.loop.second, hit);
    }
  }

  lemma LoopWriteKeepsLoop(cfg: Config, w: World, r: Response, hit: bool)
    requires Inv(cfg, w) && LoopPossible(cfg, w, r, hit) && w.loop.LWrite?
    ensures LoopOk(cfg, LoopEffect(w, r, hit).obj, w.ledger.live, LoopNext(cfg, w.loop, r))
  {
    CommitShape(cfg, w, w.loop.task, w.loop.second, hit);
  }

  lemma LoopReadKeepsLoop(cfg: Config, w: World, r: Response, hit: bool)
    requires Inv(cfg, w) && LoopPossible(cfg, w, r, hit) && (w.loop.LGet? || w.loop.LClose?)
    ensures var v := LoopEffect(w, r, hit); LoopOk(cfg, v.obj, v.ledger.live, LoopNext(cfg, w.loop, r))
  {
  }

  lemma LoopPodKeepsLoop(cfg: Config, w: World, r: Response, hit: bool)
    requires Inv(cfg, w) && LoopPossible(cfg, w, r, hit) && w.loop.LPod?
    ensures LoopOk(cfg, w.obj, w.ledger.live, LoopNext(cfg, w.loop, r))
  {
    if LeftWithZero(w, w.loop.task.status.podName) {
      ZeroMeansFinished(cfg, w, w.loop.task.status.podName);
    }
  }

  lemma LoopKeepsLoop(cfg: Config, w: World, r: Response, hit: bool)
    requires Inv(cfg, w) && LoopPossible(cfg, w, r, hit)
    ensures var v := LoopEffect(w, r, hit); LoopOk(cfg, v.obj, v.ledger.live, LoopNext(cfg, w.loop, r))
  {
    match w.loop
    case LGet(_) => LoopReadKeepsLoop(cfg, w, r, hit);
    case LClose(_) => LoopReadKeepsLoop(cfg, w, r, hit);
    case LPod(_) => LoopPodKeepsLoop(cfg, w, r, hit);
    case LWrite(_, _, _) =>
      LoopWriteMoves(cfg, w, r, hit);
      LoopWriteKeepsLoop(cfg, w, r, hit);
    case _ =>
  }

  lemma LoopKeepsInv(cfg: Config, w: World, r: Response, hit: bool)
    requires Inv(cfg, w) && LoopPossible(cfg, w, r, hit)
    ensures Inv(cfg, Apply(cfg, w, Loop(r, hit)))
  {
    LoopMoves(cfg, w, r, hit);
    LoopKeepsRegistry(cfg, w, r, hit);
    LoopKeepsOthers(cfg, w, r, hit);
    LoopKeepsLedger(cfg, w, r, hit);
    LoopKeepsLoop(cfg, w, r, hit);
  }

  // ----- steps of the submission goroutine -----

  /** The Running write: at most one Submit edge, which records the goroutine's claim. */
  lemma RunningWrite(cfg: Config, w: World, r: Response, hit: bool, lost: string)
    requires Inv(cfg, w) && SubPossible(w, r, hit, lost) && w.sub.SWrite?
    ensures var v := SubEffect(w, r, hit, lost);
            && OtherMove(w.obj, v.obj) && Counts(w, v)
            && ObjOk(cfg, v.obj, v.changes, v.runs)
            && v == w.(obj := v.obj, changes := v.changes, runs := v.runs, ledger := v.ledger)
            && (Finished(w.obj) ==> Finished(v.obj))
            && v.ledger == w.ledger.(
                 recorded := if hit then w.ledger.recorded + {w.sub.task.status.claimName} else w.ledger.recorded,
                 lostWrites := if w.sub.second && !r.GotTask? then w.ledger.lostWrites + {w.sub.task.status.claimName}
                               else w.ledger.lostWrites)
            && (hit ==> Recorded(v.obj) == {w.sub.task.status.claimName} && Recorded(w.obj) == {})
            && (!hit ==> v.obj == w.obj)
  {
    CommitShape(cfg, w, w.sub.task, w.sub.second, hit);
  }

  lemma SubMoves(cfg: Config, w: World, r: Response, hit: bool, lost: string)
    requires Inv(cfg, w) && SubPossible(w, r, hit, lost)
    ensures var v := SubEffect(w, r, hit, lost);
            && OtherMove(w.obj, v.obj) && Counts(w, v)
            && ObjOk(cfg, v.obj, v.changes, v.runs)
            && (v.runners, v.cbs, v.loop, v.sub, v.subId) == (w.runners, w.cbs, w.loop, w.sub, w.subId)
            && (Finished(w.obj) ==> Finished(v.obj))
            && v.ledger.live - w.ledger.live !! w.ledger.created
            && "" !in v.ledger.live
  {
    if w.sub.SWrite? {
      RunningWrite(cfg, w, r, hit, lost);
    }
  }

  lemma SubReadsOn(cfg: Config, obj: Option<AgentTask>, recorded: set<string>, sub: SubPc, r: Response)
    requires SubOk(obj, recorded, sub) && !sub.SWrite? && !sub.SSubmit?
    requires sub.SGet? ==> ReadPossible(obj, r)
    ensures SubOk(obj, recorded, SubNext(cfg, sub, r))
  {
  }

  lemma SubSubmitsOn(cfg: Config, obj: Option<AgentTask>, recorded: set<string>, sub: SubPc, r: Response)
    requires SubOk(obj, recorded, sub) && sub.SSubmit? && ClaimOf(sub) != "" && ClaimOf(sub) !in recorded
    requires obj.Some? ==> (obj.value.status.state == Started ==> obj.value.status.HasNoNames())
    ensures SubOk(obj, recorded, SubNext(cfg, sub, r))
  {
  }

  lemma SubStays(w: World, r: Response, hit: bool, lost: string)
    requires SubPossible(w, r, hit, lost) && !w.sub.SWrite?
    ensures var v := SubEffect(w, r, hit, lost); v.obj == w.obj && v.ledger.recorded == w.ledger.recorded
  {
  }

  lemma OtherSubKeepsSub(cfg: Config, w: World, r: Response, hit: bool, lost: string)
    requires Inv(cfg, w) && SubPossible(w, r, hit, lost) && !w.sub.SWrite?
    ensures SubOk(w.obj, w.ledger.recorded, SubNext(cfg, w.sub, r))
  {
    if w.sub.SSubmit? {
      SubSubmitsOn(cfg, w.obj, w.ledger.recorded, w.sub, r);
    } else {
      SubReadsOn(cfg, w.obj, w.ledger.recorded, w.sub, r);
    }
  }

  lemma SubKeepsSub(cfg: Config, w: World, r: Response, hit: bool, lost: string)
    requires Inv(cfg, w) && SubPossible(w, r, hit, lost)
    ensures var v := SubEffect(w, r, hit, lost); SubOk(v.obj, v.ledger.recorded, SubNext(cfg, w.sub, r))
  {
    if w.sub.SWrite? {
      RunningWrite(cfg, w, r, hit, lost);
    } else {
      SubStays(w, r, hit, lost);
      OtherSubKeepsSub(cfg, w, r, hit, lost);
    }
  }

  lemma SubLeavesRegistry(cfg: Config, w: World, r: Response, hit: bool, lost: string)
    requires SubPossible(w, r, hit, lost)
    ensures var v := SubEffect(w, r, hit, lost);
            && (v.loop, v.subId) == (w.loop, w.subId)
            && v.reg == (if w.sub.SRemove? then None else w.reg)
    ensures SubNext(cfg, w.sub, r) != SNone <==> !w.sub.SRemove?
  {
  }

  lemma SubKeepsRegistry(cfg: Config, w: World, r: Response, hit: bool, lost: string)
    requires Inv(cfg, w) && SubPossible(w, r, hit, lost)
    ensures var v := Apply(cfg, w, Sub(r, hit, lost)); RegOk(v.reg, v.loop, v.sub, v.subId)
  {
    SubLeavesRegistry(cfg, w, r, hit, lost);
  }

  lemma SubKeepsOthers(cfg: Config, w: World, r: Response, hit: bool, lost: string)
    requires Inv(cfg, w) && SubPossible(w, r, hit, lost)
    ensures var v := Apply(cfg, w, Sub(r, hit, lost));
            CbsOk(v.obj, v.cbs) && LoopOk(cfg, v.obj, v.ledger.live, v.loop)
  {
    var v := SubEffect(w, r, hit, lost);
    SubMoves(cfg, w, r, hit, lost);
    CbsOutliveMove(cfg, w.obj, v.obj, w.cbs);
    LoopOutlivesMove(cfg, w.obj, v.obj, w.ledger.live, v.ledger.live, w.loop);
  }

  lemma CreateKeepsLedger(cfg: Config, w: World, r: Response, hit: bool, lost: string)
    requires Inv(cfg, w) && SubPossible(w, r, hit, lost)
    requires w.sub.SCreate?
    ensures var v := SubEffect(w, r, hit, lost); LedgerOk(cfg, v.obj, SubNext(cfg, w.sub, r), v.ledger)
  {
  }

  lemma CleanupKeepsLedger(cfg: Config, w: World, r: Response, hit: bool, lost: string)
    requires Inv(cfg, w) && SubPossible(w, r, hit, lost)
    requires w.sub.SCleanup? || w.sub.SClose?
    ensures var v := SubEffect(w, r, hit, lost); LedgerOk(cfg, v.obj, SubNext(cfg, w.sub, r), v.ledger)
  {
  }

  lemma SubmitKeepsLedger(cfg: Config, w: World, r: Response, hit: bool, lost: string)
    requires Inv(cfg, w) && SubPossible(w, r, hit, lost)
    requires w.sub.SSubmit?
    ensures var v := SubEffect(w, r, hit, lost); LedgerOk(cfg, v.obj, SubNext(cfg, w.sub, r), v.ledger)
  {
  }

  lemma RunningWriteKeepsLedger(cfg: Config, w: World, r: Response, hit: bool, lost: string)
    requires Inv(cfg, w) && SubPossible(w, r, hit, lost)
    requires w.sub.SWrite?
    ensures var v := SubEffect(w, r, hit, lost); LedgerOk(cfg, v.obj, SubNext(cfg, w.sub, r), v.ledger)
  {
    RunningWrite(cfg, w, r, hit, lost);
  }

  lemma LedgerHandedOn(cfg: Config, obj: Option<AgentTask>, sub: SubPc, sub': SubPc, L: Ledger)
    requires LedgerOk(cfg, obj, sub, L) && ClaimOf(sub') == ClaimOf(sub)
    requires Responsible(sub') <==> Responsible(sub)
    requires ClaimOf(sub) in L.recorded ==> sub'.SWrite?
    ensures LedgerOk(cfg, obj, sub', L)
  {
  }

  lemma SubHandsOn(cfg: Config, w: World, r: Response, hit: bool, lost: string)
    requires SubPossible(w, r, hit, lost)
    requires !w.sub.SCreate? && !w.sub.SCleanup? && !w.sub.SClose? && !w.sub.SSubmit? && !w.sub.SWrite?
    ensures var v := SubEffect(w, r, hit, lost); v.ledger == w.ledger && v.obj == w.obj
    ensures ClaimOf(SubNext(cfg, w.sub, r)) == ClaimOf(w.sub)
    ensures Responsible(SubNext(cfg, w.sub, r)) <==> Responsible(w.sub)
  {
  }

  /** The remaining steps only look: they hand the same claim from one step to the next. */
  lemma OtherSubKeepsLedger(cfg: Config, w: World, r: Response, hit: bool, lost: string)
    requires Inv(cfg, w) && SubPossible(w, r, hit, lost)
    requires !w.sub.SCreate? && !w.sub.SCleanup? && !w.sub.SClose? && !w.sub.SSubmit? && !w.sub.SWrite?
    ensures var v := SubEffect(w, r, hit, lost); LedgerOk(cfg, v.obj, SubNext(cfg, w.sub, r), v.ledger)
  {
    SubHandsOn(cfg, w, r, hit, lost);
    LedgerHandedOn(cfg, w.obj, w.sub, SubNext(cfg, w.sub, r), w.ledger);
  }

  lemma SubKeepsLedger(cfg: Config, w: World, r: Response, hit: bool, lost: string)
    requires Inv(cfg, w) && SubPossible(w, r, hit, lost)
    ensures var v := SubEffect(w, r, hit, lost); LedgerOk(cfg, v.obj, SubNext(cfg, w.sub, r), v.ledger)
  {
    match w.sub
    case SCreate(_) => CreateKeepsLedger(cfg, w, r, hit, lost);
    case SCleanup(_, _) => CleanupKeepsLedger(cfg, w, r, hit, lost);
    case SClose(_, _) => CleanupKeepsLedger(cfg, w, r, hit, lost);
    case SSubmit(_, _, _) => SubmitKeepsLedger(cfg, w, r, hit, lost);
    case SWrite(_, _) => RunningWriteKeepsLedger(cfg, w, r, hit, lost);
    case _ => OtherSubKeepsLedger(cfg, w, r, hit, lost);
  }

  lemma SubKeepsInv(cfg: Config, w: World, r: Response, hit: bool, lost: string)
    requires Inv(cfg, w) && SubPossible(w, r, hit, lost)
    ensures Inv(cfg, Apply(cfg, w, Sub(r, hit, lost)))
  {
    SubMoves(cfg, w, r, hit, lost);
    SubKeepsSub(cfg, w, r, hit, lost);
    SubKeepsOthers(cfg, w, r, hit, lost);
    SubKeepsRegistry(cfg, w, r, hit, lost);
    SubKeepsLedger(cfg, w, r, hit, lost);
  }

  // ----- steps of callback handlers -----

  lemma AnswerWrite(cfg: Config, w: World, task: AgentTask, whole: bool, hit: bool)
    requires Inv(cfg, w) && (hit ==> Current(w.obj, task))
    requires Edited(w.obj, task) && (Current(w.obj, task) ==> AnswerEdge(w.obj.value.status, task.status))
    ensures var v := Commit(w, task, whole, hit);
            && OtherMove(w.obj, v.obj) && Counts(w, v)
            && ObjOk(cfg, v.obj, v.changes, v.runs)
            && v == w.(obj := v.obj, changes := v.changes, runs := v.runs)
            && (Finished(w.obj) ==> Finished(v.obj))
            && (v.obj != w.obj ==> Recorded(v.obj) == Recorded(w.obj))
            && (hit || v.obj != w.obj ==> InState(v.obj, Completed))
            && (Current(v.obj, task) ==> AnswerEdge(v.obj.value.status, task.status) && Edited(v.obj, task))
  {
    CommitShape(cfg, w, task, whole, hit);
    var v := Commit(w, task, whole, hit);
    assert v.obj != w.obj ==> Recorded(v.obj) == Recorded(w.obj);
    assert v.ledger.recorded == w.ledger.recorded;
  }

  lemma CallbackMoves(cfg: Config, w: World, i: nat, r: Response, hit: bool)
    requires Inv(cfg, w) && CbPossible(w, i, r, hit)
    ensures var v := CbEffect(w, i, r, hit);
            && OtherMove(w.obj, v.obj) && Counts(w, v)
            && ObjOk(cfg, v.obj, v.changes, v.runs)
            && v == w.(obj := v.obj, changes := v.changes, runs := v.runs, answers := v.answers)
            && (Finished(w.obj) ==> Finished(v.obj))
            && (v.obj != w.obj ==> Recorded(v.obj) == Recorded(w.obj) && InState(v.obj, Completed))
            && CbOk(v.obj, CbNext(w.cbs[i], r))
  {
    assert CbOk(w.obj, w.cbs[i]);
    if w.cbs[i].CWrite? {
      AnswerWrite(cfg, w, w.cbs[i].task, w.cbs[i].second, hit);
    }
  }

  lemma CallbackKeepsInv(cfg: Config, w: World, i: nat, r: Response, hit: bool)
    requires Inv(cfg, w) && CbPossible(w, i, r, hit)
    ensures Inv(cfg, Apply(cfg, w, Callback(i, r, hit)))
  {
    var v := Apply(cfg, w, Callback(i, r, hit));
    CallbackMoves(cfg, w, i, r, hit);
    CbsOutliveMove(cfg, w.obj, v.obj, w.cbs);
    SubOutlivesMove(cfg, w.obj, v.obj, w.ledger.recorded, w.sub);
    LoopOutlivesMove(cfg, w.obj, v.obj, w.ledger.live, v.ledger.live, w.loop);
    RunnersOutlive(w.cbs, v.cbs, w.runners);
  }

  // ----- steps of the runners -----

  lemma ZeroMeansFinished(cfg: Config, w: World, pod: string)
    requires Inv(cfg, w) && LeftWithZero(w, pod)
    ensures Finished(w.obj)
  {
    var i :| 0 <= i < |w.runners| && w.runners[i] == RExited(pod, 0);
    assert RunnerOk(w.cbs, w.runners[i]);
    var j :| 0 <= j < |w.cbs| && w.cbs[j] == CReplied(200);
    assert CbOk(w.obj, w.cbs[j]);
  }

  /** Handlers are only added, and those that have replied stay as they are. */
  ghost predicate Continues(before: seq<CbPc>, after: seq<CbPc>) {
    && |before| <= |after|
    && forall j :: 0 <= j < |before| && before[j].CReplied? ==> after[j] == before[j]
  }

  lemma RunnersOutlive(before: seq<CbPc>, after: seq<CbPc>, runners: seq<RunnerPc>)
    requires RunnersOk(before, runners) && Continues(before, after)
    ensures RunnersOk(after, runners)
  {
    forall i | 0 <= i < |runners| ensures RunnerOk(after, runners[i]) {
      assert RunnerOk(before, runners[i]);
      if runners[i].RExited? && runners[i].code == 0 {
        var j :| 0 <= j < |before| && before[j] == CReplied(200);
        assert after[j] == CReplied(200);
      }
    }
  }

  lemma RunnerMoves(cfg: Config, w: World, step: Step)
    requires Inv(cfg, w) && Enabled(cfg, w, step)
    requires step.StartRunner? || step.RunnerStops? || step.RunnerCalls? || step.RunnerHears?
    ensures var v := Apply(cfg, w, step);
            && v == w.(cbs := v.cbs, runners := v.runners)
            && CbsOk(v.obj, v.cbs) && RunnersOk(v.cbs, v.runners)
  {
    var v := Apply(cfg, w, step);
    RunnersOutlive(w.cbs, v.cbs, w.runners);
    forall i | 0 <= i < |v.runners| ensures RunnerOk(v.cbs, v.runners[i]) {
      if i < |w.runners| { assert RunnerOk(v.cbs, w.runners[i]); }
    }
  }

  // ----- all steps, and whole runs -----

  lemma StepKeepsInv(cfg: Config, w: World, step: Step)
    requires Inv(cfg, w) && Enabled(cfg, w, step)
    ensures Inv(cfg, Apply(cfg, w, step))
  {
    match step
    case BeginReconcile(_) =>
    case Loop(r, hit) => LoopKeepsInv(cfg, w, r, hit);
    case Sub(r, hit, lost) => SubKeepsInv(cfg, w, r, hit, lost);
    case NewCallback(req) => RunnersOutlive(w.cbs, w.cbs + [CGet(req)], w.runners);
    case Callback(i, r, hit) => CallbackKeepsInv(cfg, w, i, r, hit);
    case NewTokenRequest(_) =>
    case TokenRequest(_, _, _) =>
    case OtherTokens(_) =>
    case _ => RunnerMoves(cfg, w, step);
  }
}
