/** From the code to the interleavings: whatever log of calls and answers an agent's code produces while the
    others do what they like, World.dfy has a run in which the agent makes just these calls. */
module Calls {
  import opened AgentTasks
  import opened Protocol
  import opened World
  import opened Threads
  import opened Answering
  import opened Addressing
  import opened Lifecycle
  import TokenStores

  /** What the agents share: the stored object with its name, the cluster's claims, the registry, the token store,
      the callback tokens drawn so far, and the pods whose runner left with 0. */
  datatype Shared = Shared(
    obj: Option<AgentTask>,
    live: set<string>,
    created: set<string>,
    registered: bool,
    task: string,
    tokens: map<string, string>,
    minted: set<string>,
    succeeded: set<string>)

  function SharedOf(w: World): Shared {
    Shared(w.obj, w.ledger.live, w.ledger.created, w.reg.Some?, w.answers.task, w.answers.tokens, w.answers.minted,
           set i: nat | i < |w.runners| && w.runners[i].RExited? && w.runners[i].code == 0 :: w.runners[i].pod)
  }

  /** The answers a call may get, given what is shared. `hit` says whether the call takes effect, and `lost` names a
      claim that is created although an error is reported. Nothing is known of the answers to a call about
      another task. */
  predicate Possible(cfg: Config, s: Shared, a: Action, r: Response, hit: bool, lost: string) {
    match a
    case Nothing => false
    case GetTask(name) => name == s.task ==> ReadPossible(s.obj, r)
    case WriteStatus(t) => t.name == s.task ==> WritePossible(s.obj, t, false, r, hit)
    case WriteObject(t) => t.name == s.task ==> WritePossible(s.obj, t, true, r, hit)
    case DeleteTask(name) => name == s.task ==> DeletePossible(s.obj.Some?, r, hit)
    case CloseClaim(claim) => DeletePossible(claim in s.live, r, hit)
    case CreateClaim(_) =>
      var claim := if r.Text? then r.text else lost;
      r.Text? || hit ==> claim != "" && claim !in s.created
    case GetPod(pod) => cfg.faithful && r.GotPod? && Verdict(r.pod) == Some(Completed) ==> pod in s.succeeded
    case LookUp(name) => name == s.task ==> r == Flag(s.registered)
    case Register(_) => r == Done
    case Unregister(_) => r == Done
    case Spawn(_) => r == Done
    case PollContext => r.Flag?
    case VerifyToken(name, token) => r == Flag(true) ==> TokenStores.MemAccepts(s.tokens, name, token)
    case ConsumeToken(_) => r.Done? ==> hit
    case StoreToken(_, _) => r.Done? ==> hit
    case RandomToken => r.Text? && r.text !in s.minted
    case _ => true
  }

  // ----- the agents of a world -----

  datatype Agent = TheLoop | TheGoroutine | CallbackHandler(i: nat) | TokenHandler(i: nat)

  function PcOf(w: World, agent: Agent): Option<Pc> {
    match agent
    case TheLoop => Some(OfLoop(w.loop))
    case TheGoroutine => Some(OfSub(w.sub))
    case CallbackHandler(i) => if i < |w.cbs| then Some(OfCb(w.cbs[i])) else None
    case TokenHandler(i) => if i < |w.toks| then Some(OfTok(w.toks[i])) else None
  }

  function StepOf(agent: Agent, r: Response, hit: bool, lost: string): Step {
    match agent
    case TheLoop => Loop(r, hit)
    case TheGoroutine => Sub(r, hit, lost)
    case CallbackHandler(i) => Callback(i, r, hit)
    case TokenHandler(i) => TokenRequest(i, r, hit)
  }

  predicate IsOwn(agent: Agent, step: Step) {
    match agent
    case TheLoop => step.Loop?
    case TheGoroutine => step.Sub?
    case CallbackHandler(i) => step.Callback? && step.i == i
    case TokenHandler(i) => step.TokenRequest? && step.i == i
  }

  /** The beginnings of a new log: of a reconciliation, or of the next goroutine. */
  predicate Begins(w: World, agent: Agent, step: Step) {
    (agent.TheLoop? && step.BeginReconcile?) || (agent.TheGoroutine? && step.Loop? && w.loop.LSpawn?)
  }

  // ----- every possible answer is a step -----

  lemma LoopAnswersAreSteps(cfg: Config, w: World, r: Response, hit: bool)
    requires LoopNamed(w.answers.task, w.loop) && Possible(cfg, SharedOf(w), LoopAct(w.loop), r, hit, "")
    ensures LoopPossible(cfg, w, r, hit)
  {
    LoopConcerns(w.answers.task, w.loop);
  }

  lemma SubAnswersAreSteps(cfg: Config, w: World, r: Response, hit: bool, lost: string)
    requires SubNamed(w.answers.task, w.sub) && Possible(cfg, SharedOf(w), SubAct(w.sub), r, hit, lost)
    ensures SubPossible(w, r, hit, lost)
  {
    SubConcerns(w.answers.task, w.sub);
  }

  lemma CallbackAnswersAreSteps(cfg: Config, w: World, i: nat, r: Response, hit: bool)
    requires i < |w.cbs| && CbNamed(w.answers.task, w.cbs[i])
    requires Possible(cfg, SharedOf(w), CbAct(w.cbs[i]), r, hit, "")
    ensures CbPossible(w, i, r, hit)
  {
    CallbackConcerns(w.answers.task, w.cbs[i]);
  }

  lemma TokenAnswersAreSteps(cfg: Config, w: World, i: nat, r: Response, hit: bool)
    requires i < |w.toks| && TokNamed(w.answers.task, w.toks[i])
    requires Possible(cfg, SharedOf(w), TokAct(w.toks[i]), r, hit, "")
    ensures TokPossible(w, i, r, hit)
  {
    TokenConcerns(w.answers.task, w.toks[i]);
  }

  lemma OnlyCreationsName(cfg: Config, s: Shared, a: Action, r: Response, hit: bool, lost: string)
    requires Possible(cfg, s, a, r, hit, lost) && !a.CreateClaim?
    ensures Possible(cfg, s, a, r, hit, "")
  {
  }

  lemma AnswersAreSteps(cfg: Config, w: World, agent: Agent, r: Response, hit: bool, lost: string)
    requires Addressed(w) && PcOf(w, agent).Some?
    requires Possible(cfg, SharedOf(w), Act(PcOf(w, agent).value), r, hit, lost)
    ensures Enabled(cfg, w, StepOf(agent, r, hit, lost))
  {
    if agent.TheGoroutine? {
      SubAnswersAreSteps(cfg, w, r, hit, lost);
    } else {
      OnlyCreationsName(cfg, SharedOf(w), Act(PcOf(w, agent).value), r, hit, lost);
      match agent
      case TheLoop => LoopAnswersAreSteps(cfg, w, r, hit);
      case CallbackHandler(i) => CallbackAnswersAreSteps(cfg, w, i, r, hit);
      case TokenHandler(i) => TokenAnswersAreSteps(cfg, w, i, r, hit);
    }
  }

  lemma StepsFollow(cfg: Config, w: World, agent: Agent, r: Response, hit: bool, lost: string)
    requires PcOf(w, agent).Some? && Enabled(cfg, w, StepOf(agent, r, hit, lost))
    ensures PcOf(Apply(cfg, w, StepOf(agent, r, hit, lost)), agent) == Some(Next(cfg, PcOf(w, agent).value, r))
  {
  }

  lemma OthersLeaveLoop(cfg: Config, w: World, step: Step)
    requires Enabled(cfg, w, step) && !step.Loop? && !step.BeginReconcile?
    ensures Apply(cfg, w, step).loop == w.loop
  {
  }

  lemma OthersLeaveGoroutine(cfg: Config, w: World, step: Step)
    requires Enabled(cfg, w, step) && !step.Sub? && !(step.Loop? && w.loop.LSpawn?)
    ensures Apply(cfg, w, step).sub == w.sub
  {
  }

  lemma OthersLeaveHandlers(cfg: Config, w: World, step: Step)
    requires Enabled(cfg, w, step)
    ensures !step.Callback? ==> w.cbs <= Apply(cfg, w, step).cbs
    ensures !step.TokenRequest? ==> w.toks <= Apply(cfg, w, step).toks
  {
    if step.BeginReconcile? || step.Loop? || step.Sub? {
      OrchestratorLeavesAnswers(cfg, w, step);
    } else if !step.Callback? && !step.TokenRequest? && !step.OtherTokens? {
      BeginningsLeaveAnswers(cfg, w, step);
    }
  }

  lemma OthersLeavePc(cfg: Config, w: World, agent: Agent, step: Step)
    requires PcOf(w, agent).Some? && Enabled(cfg, w, step) && !IsOwn(agent, step) && !Begins(w, agent, step)
    ensures PcOf(Apply(cfg, w, step), agent) == PcOf(w, agent)
  {
    match agent
    case TheLoop => OthersLeaveLoop(cfg, w, step);
    case TheGoroutine => OthersLeaveGoroutine(cfg, w, step);
    case _ => OthersLeaveHandlers(cfg, w, step);
  }

  /** In every reachable world, whichever agent makes the next call, it is about this task. */
  lemma CallsConcernTheTask(cfg: Config, w: World, agent: Agent)
    requires Reachable(cfg, w) && PcOf(w, agent).Some?
    ensures Concerns(w.answers.task, Act(PcOf(w, agent).value))
  {
    ReachableIsGood(cfg, w);
    match agent
    case TheLoop => LoopConcerns(w.answers.task, w.loop);
    case TheGoroutine => SubConcerns(w.answers.task, w.sub);
    case CallbackHandler(i) => CallbackConcerns(w.answers.task, w.cbs[i]);
    case TokenHandler(i) => TokenConcerns(w.answers.task, w.toks[i]);
  }

  // ----- every log is part of a run -----

  /** A stretch of time as one agent's code lives it: its own calls with the answers it got, and what the others
      did in between. */
  datatype Session =
    | Opened
    | Asked(before: Session, action: Action, r: Response, hit: bool, lost: string)
    | Meanwhile(before: Session, step: Step)

  /** What the code sees of it. */
  ghost function LogOf(s: Session): Log {
    match s
    case Opened => Begin
    case Asked(before, action, r, _, _) => Then(LogOf(before), action, r)
    case Meanwhile(before, _) => LogOf(before)
  }

  function StepsOf(agent: Agent, s: Session): seq<Step> {
    match s
    case Opened => []
    case Asked(before, _, r, hit, lost) => StepsOf(agent, before) + [StepOf(agent, r, hit, lost)]
    case Meanwhile(before, step) => StepsOf(agent, before) + [step]
  }

  /** The world a session leads to, as far as its steps are possible. */
  ghost function WorldAfter(cfg: Config, w: World, agent: Agent, s: Session): World {
    if s.Opened? then w
    else
      var u := WorldAfter(cfg, w, agent, s.before);
      var step := if s.Asked? then StepOf(agent, s.r, s.hit, s.lost) else s.step;
      if Enabled(cfg, u, step) then Apply(cfg, u, step) else u
  }

  /** Every call of the code is answered as the state shared at that moment allows, and the others take steps of
      their own. */
  ghost predicate Plausible(cfg: Config, w: World, agent: Agent, s: Session) {
    s.Opened? ||
    var u := WorldAfter(cfg, w, agent, s.before);
    && Plausible(cfg, w, agent, s.before)
    && (s.Asked? ==> Possible(cfg, SharedOf(u), s.action, s.r, s.hit, s.lost))
    && (s.Meanwhile? ==> Enabled(cfg, u, s.step) && !IsOwn(agent, s.step) && !Begins(u, agent, s.step))
  }

  /** The calls an agent makes in a run. */
  ghost function AgentLog(cfg: Config, w: World, agent: Agent, steps: seq<Step>): Log
    requires RunFrom(cfg, w, steps).Some?
  {
    if steps == [] then Begin
    else
      var before, last := steps[..|steps| - 1], steps[|steps| - 1];
      var log := AgentLog(cfg, w, agent, before);
      var pc := PcOf(RunFrom(cfg, w, before).value, agent);
      if IsOwn(agent, last) && pc.Some? then Then(log, Act(pc.value), last.r) else log
  }

  lemma OneMore(cfg: Config, w: World, agent: Agent, before: seq<Step>, u: World, step: Step)
    requires RunFrom(cfg, w, before) == Some(u) && Enabled(cfg, u, step)
    ensures RunFrom(cfg, w, before + [step]) == Some(Apply(cfg, u, step))
    ensures AgentLog(cfg, w, agent, before + [step]) ==
            (if IsOwn(agent, step) && PcOf(u, agent).Some?
             then Then(AgentLog(cfg, w, agent, before), Act(PcOf(u, agent).value), step.r)
             else AgentLog(cfg, w, agent, before))
  {
    var steps := before + [step];
    assert steps[..|steps| - 1] == before;
  }

  /** Whatever the others do and whatever the code is told, as long as its calls are those of its automaton, it is
      an agent of the model: there is a run in which the agent makes exactly these calls, gets exactly these
      answers, and stands where the automaton does. */
  lemma {:induction false} LogsAreRuns(cfg: Config, w: World, agent: Agent, s: Session)
    requires Addressed(w) && PcOf(w, agent).Some? && Plausible(cfg, w, agent, s)
    requires Follow(cfg, PcOf(w, agent).value, LogOf(s)).Some?
    ensures RunFrom(cfg, w, StepsOf(agent, s)) == Some(WorldAfter(cfg, w, agent, s))
    ensures AgentLog(cfg, w, agent, StepsOf(agent, s)) == LogOf(s)
    ensures PcOf(WorldAfter(cfg, w, agent, s), agent) == Follow(cfg, PcOf(w, agent).value, LogOf(s))
    ensures Addressed(WorldAfter(cfg, w, agent, s))
  {
    if !s.Opened? {
      LogsAreRuns(cfg, w, agent, s.before);
      var u := WorldAfter(cfg, w, agent, s.before);
      if s.Asked? {
        AnswersAreSteps(cfg, u, agent, s.r, s.hit, s.lost);
        StepsFollow(cfg, u, agent, s.r, s.hit, s.lost);
        OneMore(cfg, w, agent, StepsOf(agent, s.before), u, StepOf(agent, s.r, s.hit, s.lost));
        StepKeepsAddressed(cfg, u, StepOf(agent, s.r, s.hit, s.lost));
      } else {
        OthersLeavePc(cfg, u, agent, s.step);
        OneMore(cfg, w, agent, StepsOf(agent, s.before), u, s.step);
        StepKeepsAddressed(cfg, u, s.step);
      }
    }
  }

  /** So what is proved of reachable worlds holds at every moment of every method that keeps its thread valid. */
  lemma ThreadsAreCovered(th: Thread, w: World, agent: Agent, s: Session) returns (v: World)
    requires th.Valid() && Reachable(th.cfg, w) && PcOf(w, agent) == Some(th.start)
    requires Plausible(th.cfg, w, agent, s) && LogOf(s) == th.log
    ensures v == WorldAfter(th.cfg, w, agent, s) && Reachable(th.cfg, v) && PcOf(v, agent) == Some(th.pc)
  {
    ReachableIsGood(th.cfg, w);
    LogsAreRuns(th.cfg, w, agent, s);
    v := WorldAfter(th.cfg, w, agent, s);
    ReachableRun(th.cfg, w, StepsOf(agent, s));
  }

  /** For instance: when the code of `Reconcile` is about to close a claim, at whatever point of whatever run, the
      stored task is Failed or Completed at that moment and names this claim. */
  lemma CodeClosesSafely(th: Thread, w: World, s: Session, task: AgentTask) returns (v: World)
    requires th.Valid() && Reachable(th.cfg, w) && OfLoop(w.loop) == th.start && th.pc == OfLoop(LClose(task))
    requires Plausible(th.cfg, w, TheLoop, s) && LogOf(s) == th.log
    ensures v == WorldAfter(th.cfg, w, TheLoop, s) && v.obj.Some?
    ensures v.obj.value.status.state == Failed || v.obj.value.status.state == Completed
    ensures v.obj.value.status.claimName == task.status.claimName != ""
  {
    v := ThreadsAreCovered(th, w, TheLoop, s);
    TeardownSafety(th.cfg, v);
  }
}
