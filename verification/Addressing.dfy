/** Every agent deals with this task and no other: whatever it holds a copy of, and whatever it calls by a
    task's name, is about the one task of its world. */
module Addressing {
  import opened AgentTasks
  import opened Protocol
  import opened World

  /** The call names this task, if it names one. */
  ghost predicate Concerns(task: string, a: Action) {
    match a
    case GetTask(name) => name == task
    case WriteStatus(t) => t.name == task
    case WriteObject(t) => t.name == task
    case DeleteTask(name) => name == task
    case LookUp(name) => name == task
    case Register(name) => name == task
    case Unregister(name) => name == task
    case Spawn(name) => name == task
    case GenerateTokens(name) => name == task
    case SubmitTask(_, req) => req.taskName == task
    case VerifyToken(name, _) => name == task
    case ConsumeToken(name) => name == task
    case StoreToken(name, _) => name == task
    case _ => true
  }

  // ----- what the program counters hold -----

  ghost predicate LoopNamed(task: string, pc: LoopPc) {
    match pc
    case LIdle => true
    case LGet(name) => name == task
    case LWrite(t, _, _) => t.name == task
    case LLookup(t) => t.name == task
    case LInsert(t) => t.name == task
    case LSpawn(t) => t.name == task
    case LPod(t) => t.name == task
    case LClose(t) => t.name == task
    case LDelete(t) => t.name == task
  }

  ghost predicate SubNamed(task: string, pc: SubPc) {
    match pc
    case SNone => true
    case SPoll(name) => name == task
    case SGet(name) => name == task
    case SCreate(t) => t.name == task
    case SClaimTick(t, _) => t.name == task
    case SClaim(t, _) => t.name == task
    case SSandboxTick(t, _, _) => t.name == task
    case SSandbox(t, _, _) => t.name == task
    case SPodIP(t, _) => t.name == task
    case SCleanup(t, _) => t.name == task
    case STokens(t, _) => t.name == task
    case SSubmit(t, _, _) => t.name == task
    case SClose(t, _) => t.name == task
    case SSleep(name) => name == task
    case SWrite(t, _) => t.name == task
    case SRemove(name) => name == task
  }

  ghost predicate CbNamed(task: string, pc: CbPc) {
    match pc
    case CGet(req) => req.taskName == task
    case CVerify(req, t) => req.taskName == task && t.name == task
    case CConsume(req, t) => req.taskName == task && t.name == task
    case CPost(req, t) => req.taskName == task && t.name == task
    case CWrite(req, t, _) => req.taskName == task && t.name == task
    case CReplied(_) => true
  }

  ghost predicate TokNamed(task: string, pc: TokPc) {
    match pc
    case TGet(name) => name == task
    case TMint(t) => t.name == task
    case TRandom(name, _) => name == task
    case TStore(name, _) => name == task
    case TReplied(_, _) => true
  }

  ghost predicate Addressed(w: World) {
    && (w.obj.Some? ==> w.obj.value.name == w.answers.task)
    && LoopNamed(w.answers.task, w.loop)
    && SubNamed(w.answers.task, w.sub)
    && (forall i :: 0 <= i < |w.cbs| ==> CbNamed(w.answers.task, w.cbs[i]))
    && (forall i :: 0 <= i < |w.toks| ==> TokNamed(w.answers.task, w.toks[i]))
  }

  // ----- it stays so -----

  ghost predicate ObjNamed(task: string, obj: Option<AgentTask>) {
    obj.Some? ==> obj.value.name == task
  }

  lemma LoopStaysNamed(cfg: Config, w: World, r: Response, hit: bool)
    requires Addressed(w) && LoopPossible(cfg, w, r, hit)
    ensures LoopNamed(w.answers.task, LoopNext(cfg, w.loop, r))
  {
  }

  lemma CommitKeepsObject(w: World, task: AgentTask, whole: bool, hit: bool)
    requires hit ==> Current(w.obj, task)
    requires ObjNamed(w.answers.task, w.obj) && task.name == w.answers.task
    ensures var v := Commit(w, task, whole, hit);
            && ObjNamed(w.answers.task, v.obj)
            && v == w.(obj := v.obj, changes := v.changes, runs := v.runs, ledger := v.ledger)
  {
  }

  lemma LoopKeepsObject(cfg: Config, w: World, r: Response, hit: bool)
    requires Addressed(w) && LoopPossible(cfg, w, r, hit)
    ensures var v := LoopEffect(w, r, hit);
            && ObjNamed(w.answers.task, v.obj) && SubNamed(w.answers.task, v.sub)
            && (v.answers, v.cbs, v.toks) == (w.answers, w.cbs, w.toks)
  {
    if w.loop.LWrite? { CommitKeepsObject(w, w.loop.task, w.loop.second, hit); }
  }

  lemma SubStaysNamed(cfg: Config, w: World, r: Response, hit: bool, lost: string)
    requires Addressed(w) && SubPossible(w, r, hit, lost)
    ensures SubNamed(w.answers.task, SubNext(cfg, w.sub, r))
  {
  }

  lemma SubKeepsObject(cfg: Config, w: World, r: Response, hit: bool, lost: string)
    requires Addressed(w) && SubPossible(w, r, hit, lost)
    ensures var v := SubEffect(w, r, hit, lost);
            ObjNamed(w.answers.task, v.obj) && v.loop == w.loop && (v.answers, v.cbs, v.toks) == (w.answers, w.cbs, w.toks)
  {
    if w.sub.SWrite? { CommitKeepsObject(w, w.sub.task, w.sub.second, hit); }
  }

  lemma CallbackStaysNamed(w: World, i: nat, r: Response, hit: bool)
    requires Addressed(w) && CbPossible(w, i, r, hit)
    ensures CbNamed(w.answers.task, CbNext(w.cbs[i], r))
  {
    assert CbNamed(w.answers.task, w.cbs[i]);
  }

  lemma CallbackWriteKeepsObject(w: World, i: nat, r: Response, hit: bool)
    requires Addressed(w) && CbPossible(w, i, r, hit) && w.cbs[i].CWrite?
    ensures var v := CbEffect(w, i, r, hit);
            && ObjNamed(w.answers.task, v.obj)
            && (v.loop, v.sub, v.cbs, v.toks, v.answers) == (w.loop, w.sub, w.cbs, w.toks, w.answers)
  {
    assert CbNamed(w.answers.task, w.cbs[i]);
    CommitKeepsObject(w, w.cbs[i].task, w.cbs[i].second, hit);
  }

  lemma CallbackKeepsObject(w: World, i: nat, r: Response, hit: bool)
    requires Addressed(w) && CbPossible(w, i, r, hit)
    ensures var v := CbEffect(w, i, r, hit);
            && ObjNamed(w.answers.task, v.obj) && v.answers.task == w.answers.task
            && (v.loop, v.sub, v.cbs, v.toks) == (w.loop, w.sub, w.cbs, w.toks)
  {
    if w.cbs[i].CWrite? { CallbackWriteKeepsObject(w, i, r, hit); }
  }

  lemma TokenStaysNamed(w: World, i: nat, r: Response, hit: bool)
    requires Addressed(w) && TokPossible(w, i, r, hit)
    ensures TokNamed(w.answers.task, TokNext(w.toks[i], r))
  {
    assert TokNamed(w.answers.task, w.toks[i]);
  }

  lemma StepKeepsAddressed(cfg: Config, w: World, step: Step)
    requires Addressed(w) && Enabled(cfg, w, step)
    ensures Addressed(Apply(cfg, w, step))
  {
    match step
    case Loop(r, hit) =>
      LoopStaysNamed(cfg, w, r, hit);
      LoopKeepsObject(cfg, w, r, hit);
    case Sub(r, hit, lost) =>
      SubStaysNamed(cfg, w, r, hit, lost);
      SubKeepsObject(cfg, w, r, hit, lost);
    case Callback(i, r, hit) =>
      CallbackStaysNamed(w, i, r, hit);
      CallbackKeepsObject(w, i, r, hit);
    case TokenRequest(i, r, hit) => TokenStaysNamed(w, i, r, hit);
    case _ =>
  }

  // ----- what that means for the calls and for the token store -----

  lemma LoopConcerns(task: string, pc: LoopPc)
    requires LoopNamed(task, pc)
    ensures Concerns(task, LoopAct(pc))
  {
  }

  lemma SubConcerns(task: string, pc: SubPc)
    requires SubNamed(task, pc)
    ensures Concerns(task, SubAct(pc))
  {
  }

  lemma CallbackConcerns(task: string, pc: CbPc)
    requires CbNamed(task, pc)
    ensures Concerns(task, CbAct(pc))
  {
  }

  lemma TokenConcerns(task: string, pc: TokPc)
    requires TokNamed(task, pc)
    ensures Concerns(task, TokAct(pc))
  {
  }

  lemma CallbackKeepsOthersTokens(A: Answers, cbs: seq<CbPc>, i: nat, r: Response, hit: bool)
    requires i < |cbs| && CbNamed(A.task, cbs[i])
    ensures var B := CbAnswers(A, cbs, i, r, hit); B.task == A.task && B.tokens - {A.task} == A.tokens - {A.task}
  {
    CallbackConcerns(A.task, cbs[i]);
  }

  lemma HandlerKeepsOthersTokens(A: Answers, tok: TokPc, r: Response, hit: bool)
    requires TokNamed(A.task, tok)
    ensures var B := TokAnswers(A, tok, r, hit); B.task == A.task && B.tokens - {A.task} == A.tokens - {A.task}
  {
    TokenConcerns(A.task, tok);
  }

  /** The agents of this task leave the tokens of all other tasks alone. */
  lemma OthersTokensStay(cfg: Config, w: World, step: Step)
    requires Addressed(w) && Enabled(cfg, w, step) && !step.OtherTokens?
    ensures var v := Apply(cfg, w, step).answers;
            v.task == w.answers.task && v.tokens - {v.task} == w.answers.tokens - {v.task}
  {
    match step
    case Loop(r, hit) => LoopKeepsObject(cfg, w, r, hit);
    case Sub(r, hit, lost) => SubKeepsObject(cfg, w, r, hit, lost);
    case Callback(i, r, hit) =>
      CallbackKeepsOthersTokens(w.answers, w.cbs, i, r, hit);
      CallbackKeepsObject(w, i, r, hit);
    case TokenRequest(i, r, hit) => HandlerKeepsOthersTokens(w.answers, w.toks[i], r, hit);
    case _ =>
  }
}
