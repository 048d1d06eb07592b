/** The automata say exactly what the histories say: after every log an automaton stands where its next call is
    the one that the history calls for. */
module Tracing {
  import opened AgentTasks
  import opened Protocol
  import opened Threads
  import opened Histories

  /** Where an agent begins. */
  predicate IsBeginning(start: Pc) {
    match start
    case OfLoop(l) => l.LGet?
    case OfSub(s) => s.SPoll?
    case OfCb(c) => c.CGet?
    case OfTok(t) => t.TGet?
  }

  /** The call that the history calls for. */
  ghost predicate Calls(cfg: Config, start: Pc, log: Log, a: Action)
    requires IsBeginning(start)
  {
    match start
    case OfLoop(l) => LoopCalls(cfg.maxRetries, l.name, log, a)
    case OfSub(s) => GoroutineCalls(cfg.repaired, s.name, log, a)
    case OfCb(c) => CallbackCalls(c.req, log, a)
    case OfTok(t) => TokenCalls(t.name, log, a)
  }

  /** Every call in the log is the one that the history before it calls for. */
  ghost predicate AllCalledFor(cfg: Config, start: Pc, log: Log)
    requires IsBeginning(start)
  {
    log.Then? ==> AllCalledFor(cfg, start, log.before) && Calls(cfg, start, log.before, log.action)
  }

  // ----- the reconcile loop -----

  ghost predicate LoopKnows(name: string, log: Log, pc: LoopPc) {
    match pc
    case LIdle => log.Then?
    case LGet(n) => log.Begin? && n == name
    case LWrite(task, second, after) =>
      && log.Then?
      && (after.AfterInit? <==> task.status.state == Pending)
      && (after.AfterClear? <==> task.status.state == Failed && EndsInClose(UpToWrites(log)))
      && (second ==> log.action == WriteStatus(task) && !log.response.GotTask? && !log.response.Garbled?)
    case LLookup(task) => log.Then? && log.action.GetTask? && log.response == GotTask(task) && task.status.state == Started
    case LInsert(task) => log.Then? && log.action == LookUp(task.name) && log.response != Flag(true)
    case LSpawn(task) => log.Then? && log.action == Register(task.name)
    case LPod(task) =>
      && log.Then? && log.action.GetTask? && log.response == GotTask(task)
      && task.status.state == Running && task.status.podName != ""
    case LClose(task) =>
      && log.Then? && log.action.GetTask? && log.response == GotTask(task) && task.status.claimName != ""
      && (task.status.state == Completed || task.status.state == Failed)
    case LDelete(task) => log.Then?
  }

  /** What is known stays known, and the next call is the one called for. */
  lemma LoopKeepsKnowing(cfg: Config, name: string, before: Log, pc: LoopPc, r: Response)
    requires LoopKnows(name, before, pc) && !pc.LIdle?
    ensures LoopKnows(name, Then(before, LoopAct(pc), r), LoopNext(cfg, pc, r))
  {
  }

  lemma LoopCallsFor(cfg: Config, task: AgentTask, a: Action)
    ensures CallsFor(cfg.maxRetries, task, a) <==> !Dispatch(cfg, task).LIdle? && a == LoopAct(Dispatch(cfg, task))
  {
  }

  lemma LoopCallsAfterWrite(cfg: Config, before: Log, task: AgentTask, after: Continuation, answer: AgentTask, a: Action)
    requires after.AfterInit? <==> task.status.state == Pending
    requires after.AfterClear? <==> task.status.state == Failed && EndsInClose(before)
    ensures CallsAfterWrite(cfg.maxRetries, before, task, answer, a)
            <==> !Resume(cfg, after, answer).LIdle? && a == LoopAct(Resume(cfg, after, answer))
  {
  }

  lemma LoopCallsAfterPod(cfg: Config, task: AgentTask, r: Response, a: Action)
    ensures var next := LoopNext(cfg, LPod(task), r);
            CallsAfterPod(task, r, a) <==> !next.LIdle? && a == LoopAct(next)
  {
    if r.GotPod? { VerdictIsExact(r.pod); }
  }

  /** After the answer `r` the next call is the one that the history calls for. */
  ghost predicate LoopGoesOn(cfg: Config, name: string, before: Log, pc: LoopPc, r: Response, a: Action) {
    var next := LoopNext(cfg, pc, r);
    LoopCalls(cfg.maxRetries, name, Then(before, LoopAct(pc), r), a) <==> !next.LIdle? && a == LoopAct(next)
  }

  lemma LoopReadsOn(cfg: Config, name: string, before: Log, pc: LoopPc, r: Response, a: Action)
    requires LoopKnows(name, before, pc) && (pc.LGet? || pc.LPod?)
    ensures LoopGoesOn(cfg, name, before, pc, r, a)
  {
    if pc.LPod? {
      LoopCallsAfterPod(cfg, pc.task, r, a);
    } else if r.GotTask? {
      LoopCallsFor(cfg, r.task, a);
    }
  }

  lemma LoopWritesOn(cfg: Config, name: string, before: Log, pc: LoopPc, r: Response, a: Action)
    requires LoopKnows(name, before, pc) && pc.LWrite?
    ensures LoopGoesOn(cfg, name, before, pc, r, a)
  {
    if r.GotTask? { LoopCallsAfterWrite(cfg, UpToWrites(before), pc.task, pc.after, r.task, a); }
  }

  lemma LoopCallsNext(cfg: Config, name: string, before: Log, pc: LoopPc, r: Response, a: Action)
    requires LoopKnows(name, before, pc) && !pc.LIdle?
    ensures LoopGoesOn(cfg, name, before, pc, r, a)
  {
    if pc.LGet? || pc.LPod? {
      LoopReadsOn(cfg, name, before, pc, r, a);
    } else if pc.LWrite? {
      LoopWritesOn(cfg, name, before, pc, r, a);
    }
  }

  // ----- the submission goroutine -----

  /** The task and the claim that a goroutine works with are the latest it was told of. */
  ghost predicate HasClaim(name: string, log: Log, task: AgentTask, claim: string) {
    log.Then? && LastTask(log) == Some(task) && task.name == name && LastClaim(log) == Some(claim)
  }

  ghost predicate SubKnows(name: string, log: Log, pc: SubPc) {
    match pc
    case SNone => log.Then?
    case SPoll(n) => n == name && (log.Begin? || log.action.Sleep?)
    case SGet(n) => log.Then? && n == name
    case SCreate(task) =>
      && log.Then? && log.action.GetTask? && log.response == GotTask(task)
      && task.name == name && task.status.state == Started && task.spec.sandboxTemplate != ""
    case SClaimTick(task, claim) =>
      && HasClaim(name, log, task, claim)
      && (log.action.CreateClaim? || (log.action.GetClaim? && log.response == Text("")))
    case SClaim(task, claim) => HasClaim(name, log, task, claim)
    case SSandboxTick(task, claim, sandbox) =>
      && HasClaim(name, log, task, claim) && LastName(log) == Some(sandbox) && sandbox != ""
      && (log.action.GetSandbox? || (log.action.GetClaim? && log.response == Text(sandbox)))
    case SSandbox(task, claim, sandbox) => HasClaim(name, log, task, claim) && LastName(log) == Some(sandbox) && sandbox != ""
    case SPodIP(task, h) =>
      && HasClaim(name, log, task, h.claim) && LastName(log) == Some(h.sandbox)
      && LastSandbox(log).Some? && NamesPod(LastSandbox(log).value, h.sandbox, h.pod)
      && IsAddress(LastSandbox(log).value, Failure, h.ip)
    case SCleanup(task, claim) => HasClaim(name, log, task, claim)
    case STokens(task, h) => HasClaim(name, log, task, h.claim) && IsHandle(log, h)
    case SSubmit(task, h, tokens) =>
      && HasClaim(name, log, task, h.claim) && IsHandle(log.before, h) && LastTask(log.before) == Some(task)
      && log.action.GenerateTokens? && log.response == GotTokens(tokens)
    case SClose(task, h) => HasClaim(name, log, task, h.claim)
    case SSleep(n) => log.Then? && n == name
    case SWrite(task, second) =>
      && log.Then? && task.name == name
      && (second ==> log.action == WriteStatus(task) && !log.response.GotTask? && !log.response.Garbled?)
    case SRemove(n) => log.Then? && n == name
  }

  lemma SubKeepsKnowing(cfg: Config, name: string, before: Log, pc: SubPc, r: Response)
    requires SubKnows(name, before, pc) && !pc.SNone? && IsSane(SubAct(pc), r)
    ensures SubKnows(name, Then(before, SubAct(pc), r), SubNext(cfg, pc, r))
  {
  }

  lemma PoolIsExact(template: string, pool: string)
    ensures IsPoolOf(template, pool) <==> pool == WarmPool(template)
  {
    if stem :| template == stem + "-template" {
      WarmPoolNames(stem, template);
      forall s | template == s + "-template" ensures s == stem {
        assert s == template[..|template| - 9] == stem;
      }
    } else {
      WarmPoolNames("", template);
    }
  }

  lemma SubCallsAfterPoll(cfg: Config, name: string, before: Log, pc: SubPc, r: Response, a: Action)
    requires SubKnows(name, before, pc) && (pc.SPoll? || pc.SClaimTick? || pc.SSandboxTick?)
    ensures CallsAfterPoll(name, before, r == Flag(true), a) <==> a == SubAct(SubNext(cfg, pc, r))
  {
  }

  lemma SubCallsAfterRead(cfg: Config, name: string, r: Response, a: Action)
    requires IsSane(GetTask(name), r)
    ensures CallsAfterRead(name, r, a) <==> a == SubAct(SubNext(cfg, SGet(name), r))
  {
    if r.GotTask? && a.CreateClaim? { PoolIsExact(r.task.spec.sandboxTemplate, a.warmPool); }
  }

  lemma SubCallsAfterSandbox(cfg: Config, name: string, before: Log, pc: SubPc, r: Response, a: Action)
    requires SubKnows(name, before, pc) && pc.SSandbox?
    ensures CallsAfterSandbox(before, r, a) <==> a == SubAct(SubNext(cfg, pc, r))
  {
  }

  /** Only one handle fits a history, and only one request fits a task and its tokens. */
  lemma HandleIsExact(log: Log, h: Handle, g: Handle)
    requires IsHandle(log, h)
    ensures IsHandle(log, g) <==> g == h
  {
  }

  lemma RequestIsExact(req: TaskRequest, task: AgentTask, tokens: Tokens)
    ensures Carries(req, task, tokens) <==> req == BuildRequest(task, tokens)
  {
  }

  lemma SubCallsAfterTokens(cfg: Config, name: string, before: Log, pc: SubPc, r: Response, a: Action)
    requires SubKnows(name, before, pc) && pc.STokens?
    ensures CallsAfterTokens(before, r, a) <==> a == SubAct(SubNext(cfg, pc, r))
  {
    if r.GotTokens? && a.SubmitTask? {
      HandleIsExact(before, pc.handle, a.handle);
      RequestIsExact(a.req, pc.task, r.tokens);
    }
  }

  lemma SubCallsAfterSubmit(cfg: Config, name: string, before: Log, pc: SubPc, r: Response, a: Action)
    requires SubKnows(name, before, pc) && pc.SSubmit?
    ensures CallsAfterSubmit(cfg.repaired, before, pc.handle, r, a) <==> a == SubAct(SubNext(cfg, pc, r))
  {
  }

  ghost predicate SubGoesOn(cfg: Config, name: string, before: Log, pc: SubPc, r: Response, a: Action) {
    var next := SubNext(cfg, pc, r);
    GoroutineCalls(cfg.repaired, name, Then(before, SubAct(pc), r), a) <==> !next.SNone? && a == SubAct(next)
  }

  lemma SubPollsOn(cfg: Config, name: string, before: Log, pc: SubPc, r: Response, a: Action)
    requires SubKnows(name, before, pc) && (pc.SPoll? || pc.SClaimTick? || pc.SSandboxTick?)
    ensures SubGoesOn(cfg, name, before, pc, r, a)
  {
    SubCallsAfterPoll(cfg, name, before, pc, r, a);
  }

  lemma SubReadsOn(cfg: Config, name: string, before: Log, pc: SubPc, r: Response, a: Action)
    requires SubKnows(name, before, pc) && (pc.SGet? || pc.SSandbox?) && IsSane(SubAct(pc), r)
    ensures SubGoesOn(cfg, name, before, pc, r, a)
  {
    if pc.SGet? {
      SubCallsAfterRead(cfg, name, r, a);
    } else {
      SubCallsAfterSandbox(cfg, name, before, pc, r, a);
    }
  }

  lemma SubDeliversOn(cfg: Config, name: string, before: Log, pc: SubPc, r: Response, a: Action)
    requires SubKnows(name, before, pc) && (pc.STokens? || pc.SSubmit?)
    ensures SubGoesOn(cfg, name, before, pc, r, a)
  {
    if pc.STokens? {
      SubCallsAfterTokens(cfg, name, before, pc, r, a);
    } else {
      SubCallsAfterSubmit(cfg, name, before, pc, r, a);
    }
  }

  lemma SubWaitsOn(cfg: Config, name: string, before: Log, pc: SubPc, r: Response, a: Action)
    requires SubKnows(name, before, pc) && (pc.SCreate? || pc.SClaim? || pc.SPodIP? || pc.SCleanup?)
    ensures SubGoesOn(cfg, name, before, pc, r, a)
  {
  }

  lemma SubEndsOn(cfg: Config, name: string, before: Log, pc: SubPc, r: Response, a: Action)
    requires SubKnows(name, before, pc) && (pc.SClose? || pc.SSleep? || pc.SWrite? || pc.SRemove?)
    ensures SubGoesOn(cfg, name, before, pc, r, a)
  {
  }

  lemma SubCallsNext(cfg: Config, name: string, before: Log, pc: SubPc, r: Response, a: Action)
    requires SubKnows(name, before, pc) && !pc.SNone? && IsSane(SubAct(pc), r)
    ensures SubGoesOn(cfg, name, before, pc, r, a)
  {
    if pc.SPoll? || pc.SClaimTick? || pc.SSandboxTick? {
      SubPollsOn(cfg, name, before, pc, r, a);
    } else if pc.SGet? || pc.SSandbox? {
      SubReadsOn(cfg, name, before, pc, r, a);
    } else if pc.STokens? || pc.SSubmit? {
      SubDeliversOn(cfg, name, before, pc, r, a);
    } else if pc.SCreate? || pc.SClaim? || pc.SPodIP? || pc.SCleanup? {
      SubWaitsOn(cfg, name, before, pc, r, a);
    } else {
      SubEndsOn(cfg, name, before, pc, r, a);
    }
  }

  // ----- the callback handler -----

  ghost predicate CbKnows(req: CallbackRequest, log: Log, pc: CbPc) {
    match pc
    case CGet(q) => log.Begin? && q == req
    case CVerify(q, task) => log.Then? && q == req && LastTask(log) == Some(task)
    case CConsume(q, task) => log.Then? && q == req && LastTask(log) == Some(task)
    case CPost(q, task) => log.Then? && q == req && LastTask(log) == Some(task)
    case CWrite(q, task, second) => log.Then? && q == req
    case CReplied(code) => CallbackReplies(req, log, code)
  }

  lemma CbKeepsKnowing(req: CallbackRequest, before: Log, pc: CbPc, r: Response)
    requires CbKnows(req, before, pc) && !pc.CReplied?
    ensures CbKnows(req, Then(before, CbAct(pc), r), CbNext(pc, r))
  {
  }

  lemma CbCallsNext(req: CallbackRequest, before: Log, pc: CbPc, r: Response, a: Action)
    requires CbKnows(req, before, pc) && !pc.CReplied?
    ensures var next := CbNext(pc, r);
            CallbackCalls(req, Then(before, CbAct(pc), r), a) <==> !next.CReplied? && a == CbAct(next)
  {
  }

  // ----- the token handler -----

  ghost predicate TokKnows(name: string, log: Log, pc: TokPc) {
    match pc
    case TGet(n) => log.Begin? && n == name
    case TMint(task) => log.Then? && log.action.GetTask? && task.name == name && log.response == GotTask(task)
    case TRandom(n, gitHubToken) => log.Then? && n == name && log.action.MintToken? && log.response == Text(gitHubToken)
    case TStore(n, tokens) =>
      log.Then? && n == name && log.response == Text(tokens.callbackToken) && Minted(log, tokens.gitHubToken)
    case TReplied(code, tokens) => TokenReplies(log, code, tokens)
  }

  lemma TokKeepsKnowing(name: string, before: Log, pc: TokPc, r: Response)
    requires TokKnows(name, before, pc) && !pc.TReplied? && IsSane(TokAct(pc), r)
    ensures TokKnows(name, Then(before, TokAct(pc), r), TokNext(pc, r))
  {
  }

  lemma TokCallsNext(name: string, before: Log, pc: TokPc, r: Response, a: Action)
    requires TokKnows(name, before, pc) && !pc.TReplied? && IsSane(TokAct(pc), r)
    ensures var next := TokNext(pc, r);
            TokenCalls(name, Then(before, TokAct(pc), r), a) <==> !next.TReplied? && a == TokAct(next)
  {
  }

  // ----- all agents -----

  ghost predicate Knows(start: Pc, log: Log, pc: Pc)
    requires IsBeginning(start)
  {
    match start
    case OfLoop(l) => pc.OfLoop? && LoopKnows(l.name, log, pc.l)
    case OfSub(s) => pc.OfSub? && SubKnows(s.name, log, pc.s)
    case OfCb(c) => pc.OfCb? && CbKnows(c.req, log, pc.c)
    case OfTok(t) => pc.OfTok? && TokKnows(t.name, log, pc.t)
  }

  predicate IsEnd(pc: Pc) {
    match pc
    case OfLoop(l) => l.LIdle?
    case OfSub(s) => s.SNone?
    case OfCb(c) => c.CReplied?
    case OfTok(t) => t.TReplied?
  }

  lemma KeepsKnowing(cfg: Config, start: Pc, before: Log, pc: Pc, r: Response)
    requires IsBeginning(start) && Knows(start, before, pc) && !IsEnd(pc) && IsSane(Act(pc), r)
    ensures Knows(start, Then(before, Act(pc), r), Next(cfg, pc, r))
  {
    match start
    case OfLoop(l) => LoopKeepsKnowing(cfg, l.name, before, pc.l, r);
    case OfSub(s) => SubKeepsKnowing(cfg, s.name, before, pc.s, r);
    case OfCb(c) => CbKeepsKnowing(c.req, before, pc.c, r);
    case OfTok(t) => TokKeepsKnowing(t.name, before, pc.t, r);
  }

  lemma CallsNext(cfg: Config, start: Pc, before: Log, pc: Pc, r: Response, a: Action)
    requires IsBeginning(start) && Knows(start, before, pc) && !IsEnd(pc) && IsSane(Act(pc), r)
    ensures var next := Next(cfg, pc, r); Calls(cfg, start, Then(before, Act(pc), r), a) <==> !IsEnd(next) && a == Act(next)
  {
    match start
    case OfLoop(l) => LoopCallsNext(cfg, l.name, before, pc.l, r, a);
    case OfSub(s) => SubCallsNext(cfg, s.name, before, pc.s, r, a);
    case OfCb(c) => CbCallsNext(c.req, before, pc.c, r, a);
    case OfTok(t) => TokCallsNext(t.name, before, pc.t, r, a);
  }

  /** Where an automaton stands after a log of real calls, its history is known, and its next call is the only one
      that the history calls for; at the end there is none. */
  lemma {:induction false} StandsWhereCalled(cfg: Config, start: Pc, log: Log, a: Action)
    requires IsBeginning(start) && SaneLog(log) && Follow(cfg, start, log).Some?
    ensures var pc := Follow(cfg, start, log).value;
            && Knows(start, log, pc)
            && (Calls(cfg, start, log, a) <==> !IsEnd(pc) && a == Act(pc))
  {
    if log.Then? {
      StandsWhereCalled(cfg, start, log.before, log.action);
      var pc := Follow(cfg, start, log.before).value;
      KeepsKnowing(cfg, start, log.before, pc, log.response);
      CallsNext(cfg, start, log.before, pc, log.response, a);
    }
  }

  /** A log keeps to the automaton if and only if every call in it is the one that the history before it calls for. */
  lemma {:induction false} FollowsExactly(cfg: Config, start: Pc, log: Log)
    requires IsBeginning(start) && SaneLog(log)
    ensures Follow(cfg, start, log).Some? <==> AllCalledFor(cfg, start, log)
  {
    if log.Then? {
      FollowsExactly(cfg, start, log.before);
      if Follow(cfg, start, log.before).Some? {
        StandsWhereCalled(cfg, start, log.before, log.action);
      }
    }
  }

  /** So every call that the code makes is, with all its arguments, the one that its history calls for. */
  lemma ThreadsCallRight(th: Thread)
    requires th.Valid() && IsBeginning(th.start)
    ensures AllCalledFor(th.cfg, th.start, th.log) && Knows(th.start, th.log, th.pc)
  {
    FollowsExactly(th.cfg, th.start, th.log);
    StandsWhereCalled(th.cfg, th.start, th.log, Nothing);
  }

  /** And when the code has come to its end, its history calls for nothing more. */
  lemma EndsWhereCalled(th: Thread)
    requires th.Valid() && IsBeginning(th.start) && IsEnd(th.pc)
    ensures AllCalledFor(th.cfg, th.start, th.log) && Knows(th.start, th.log, th.pc)
    ensures forall a :: !Calls(th.cfg, th.start, th.log, a)
  {
    ThreadsCallRight(th);
    forall a ensures !Calls(th.cfg, th.start, th.log, a) {
      StandsWhereCalled(th.cfg, th.start, th.log, a);
    }
  }
}
