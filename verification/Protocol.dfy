/** The control flow of the agents that act on an AgentTask, one small automaton each.
    A program counter says which call the agent makes next (`...Act`) and where the answer
    takes it (`...Next`). The interleaving model in World.dfy and the executable methods of
    the orchestrator, the sandbox client and the listener follow these same automata. */
module Protocol {
  import opened AgentTasks

  // ----- what agents ask for, and what they are told -----

  datatype Tokens = Tokens(callbackToken: string, gitHubToken: string)

  /** A sandbox as the orchestrator knows it after creating it. */
  datatype Handle = Handle(claim: string, sandbox: string, pod: string, ip: string)

  datatype TaskRequest = TaskRequest(
    taskName: string,
    callbackToken: string,
    gitHubToken: string,
    repoOwner: string,
    repoName: string,
    taskOwner: string,
    taskOwnerEmail: string,
    taskType: string,
    prompt: string,
    issueNumber: int)

  datatype CallbackRequest = CallbackRequest(taskName: string, token: string, response: string)

  datatype Action =
    | Nothing
    | GetTask(name: string)
    | WriteStatus(task: AgentTask)      // UpdateStatus
    | WriteObject(task: AgentTask)      // Update
    | DeleteTask(name: string)
    | LookUp(name: string)              // activeTasks
    | Register(name: string)
    | Unregister(name: string)
    | Spawn(name: string)
    | PollContext
    | Sleep
    | GetPod(name: string)
    | CloseClaim(claim: string)
    | CreateClaim(warmPool: string)
    | GetClaim(claim: string)
    | GetSandbox(name: string)
    | GenerateTokens(name: string)
    | SubmitTask(handle: Handle, req: TaskRequest)
    | VerifyToken(name: string, token: string)
    | ConsumeToken(name: string)
    | PostComment(owner: string, repo: string, issue: int, body: string)
    | MintToken(owner: string, repo: string)
    | RandomToken
    | StoreToken(name: string, token: string)

  datatype Phase = PodPending | PodRunning | PodSucceeded | PodFailed | PodUnknown

  /** For each container, its exit code once it has terminated. */
  datatype PodStatus = PodStatus(containers: seq<Option<int>>, phase: Phase, ip: string)

  datatype SandboxStatus = SandboxStatus(conditions: seq<(string, string)>, podIPs: seq<string>, podAnnotation: string)

  /** `Failure` is any error other than "not found"; an answer of the wrong kind counts as one. `Garbled` is a
      success whose object cannot be parsed. */
  datatype Response =
    | Failure
    | Garbled
    | NotFound
    | Done
    | Flag(b: bool)
    | Text(text: string)
    | GotTask(task: AgentTask)
    | GotPod(pod: PodStatus)
    | GotSandbox(sandbox: SandboxStatus)
    | GotTokens(tokens: Tokens)

  /** `repaired` closes the sandbox when the task cannot be submitted, as the deferred cleanup
      intends; the source as written leaves it open. `faithful` restricts sandbox pods to those
      that terminate successfully only when their runner leaves with 0. */
  datatype Config = Config(maxRetries: nat, repaired: bool, faithful: bool)

  // ----- the reconcile loop -----

  datatype Continuation = AfterInit | AfterReturn | AfterClear

  datatype LoopPc =
    | LIdle
    | LGet(name: string)
    | LWrite(task: AgentTask, second: bool, after: Continuation)
    | LLookup(task: AgentTask)
    | LInsert(task: AgentTask)
    | LSpawn(task: AgentTask)
    | LPod(task: AgentTask)
    | LClose(task: AgentTask)
    | LDelete(task: AgentTask)

  function LoopAct(pc: LoopPc): Action {
    match pc
    case LIdle => Nothing
    case LGet(name) => GetTask(name)
    case LWrite(task, second, _) => if second then WriteObject(task) else WriteStatus(task)
    case LLookup(task) => LookUp(task.name)
    case LInsert(task) => Register(task.name)
    case LSpawn(task) => Spawn(task.name)
    case LPod(task) => GetPod(task.status.podName)
    case LClose(task) => CloseClaim(task.status.claimName)
    case LDelete(task) => DeleteTask(task.name)
  }

  function LoopNext(cfg: Config, pc: LoopPc, r: Response): LoopPc {
    match pc
    case LIdle => LIdle
    case LGet(_) => if r.GotTask? then Dispatch(cfg, r.task) else LIdle
    case LWrite(task, second, after) =>
      if r.GotTask? then Resume(cfg, after, r.task)
      else if second || r.Garbled? then LIdle
      else LWrite(task, true, after)
    case LLookup(task) => if r == Flag(true) then LIdle else LInsert(task)
    case LInsert(task) => LSpawn(task)
    case LSpawn(_) => LIdle
    case LPod(task) =>
      if r.NotFound? then LWrite(task.WithState(Failed), false, AfterReturn)
      else if r.GotPod? then
        match Verdict(r.pod)
        case None => LIdle
        case Some(s) => LWrite(task.WithState(s), false, AfterReturn)
      else LIdle
    case LClose(task) =>
      if r.Done? || r.NotFound? then AfterClose(task) else LIdle
    case LDelete(_) => LIdle
  }

  /** The branch taken on the state that was read. */
  function Dispatch(cfg: Config, task: AgentTask): LoopPc {
    match task.status.state
    case Unset => LWrite(task.WithState(Pending), false, AfterInit)
    case Pending => PendingStep(task)
    case Started => LLookup(task)
    case Running => if task.status.podName == "" then LIdle else LPod(task)
    case Completed => if task.status.claimName != "" then LClose(task) else LDelete(task)
    case Failed => if task.status.claimName != "" then LClose(task) else RetryStep(cfg, task)
    case Deleted => LIdle
    case Other(_) => LIdle
  }

  function PendingStep(task: AgentTask): LoopPc {
    if ValidSpec(task.spec) then LWrite(task.WithState(Started), false, AfterReturn) else LIdle
  }

  function AfterClose(task: AgentTask): LoopPc {
    if task.status.state == Completed then LDelete(task)
    else LWrite(task.(status := task.status.Cleared()), false, AfterClear)
  }

  function RetryStep(cfg: Config, task: AgentTask): LoopPc {
    if task.status.retries < cfg.maxRetries
    then LWrite(Retried(task), false, AfterReturn)
    else LIdle
  }

  function Retried(task: AgentTask): AgentTask {
    task.(status := task.status.(retries := task.status.retries + 1, state := Started))
  }

  function Resume(cfg: Config, after: Continuation, updated: AgentTask): LoopPc {
    match after
    case AfterInit => PendingStep(updated)
    case AfterReturn => LIdle
    case AfterClear => RetryStep(cfg, updated)
  }

  /** The state a pod's status calls for: the first terminated container decides, then the phase. */
  function Verdict(pod: PodStatus): Option<TaskState> {
    match FirstTerminated(pod.containers)
    case Some(code) => Some(if code == 0 then Completed else Failed)
    case None =>
      if pod.phase == PodSucceeded then Some(Completed)
      else if pod.phase == PodFailed then Some(Failed)
      else None
  }

  function FirstTerminated(containers: seq<Option<int>>): Option<int> {
    if containers == [] then None
    else if containers[0].Some? then containers[0]
    else FirstTerminated(containers[1..])
  }

  /** Container i is the first that has terminated. */
  ghost predicate IsFirstTerminated(containers: seq<Option<int>>, i: int) {
    0 <= i < |containers| && containers[i].Some? && forall j :: 0 <= j < i ==> containers[j].None?
  }

  lemma {:induction false} FirstTerminatedIsExact(containers: seq<Option<int>>)
    ensures FirstTerminated(containers).None? <==> forall i :: 0 <= i < |containers| ==> containers[i].None?
    ensures FirstTerminated(containers).Some? ==>
              exists i :: IsFirstTerminated(containers, i) && containers[i] == FirstTerminated(containers)
  {
    if containers != [] {
      if containers[0].Some? {
        assert IsFirstTerminated(containers, 0);
      } else {
        var rest := containers[1..];
        FirstTerminatedIsExact(rest);
        assert forall i :: 0 <= i < |rest| ==> rest[i] == containers[i + 1];
        if FirstTerminated(rest).Some? {
          var i :| IsFirstTerminated(rest, i) && rest[i] == FirstTerminated(rest);
          assert forall j :: 0 < j < i + 1 ==> containers[j] == rest[j - 1];
          assert IsFirstTerminated(containers, i + 1);
        } else {
          forall i | 0 <= i < |containers| ensures containers[i].None? {
            if i > 0 { assert rest[i - 1].None?; }
          }
        }
      }
    }
  }

  /** A finished pod: the first terminated container decides or, if none has terminated, the phase. */
  ghost predicate PodSucceeds(pod: PodStatus) {
    || (exists i :: IsFirstTerminated(pod.containers, i) && pod.containers[i].value == 0)
    || (pod.phase == PodSucceeded && forall i :: 0 <= i < |pod.containers| ==> pod.containers[i].None?)
  }

  ghost predicate PodFails(pod: PodStatus) {
    || (exists i :: IsFirstTerminated(pod.containers, i) && pod.containers[i].value != 0)
    || (pod.phase == PodFailed && forall i :: 0 <= i < |pod.containers| ==> pod.containers[i].None?)
  }

  /** A pod completes its task exactly if its first terminated container exited with 0 or, with none terminated,
      the pod as a whole succeeded; it fails the task exactly in the opposite cases. */
  lemma VerdictIsExact(pod: PodStatus)
    ensures Verdict(pod) == Some(Completed) <==> PodSucceeds(pod)
    ensures Verdict(pod) == Some(Failed) <==> PodFails(pod)
    ensures Verdict(pod) in {None, Some(Completed), Some(Failed)}
  {
    FirstTerminatedIsExact(pod.containers);
  }

  // ----- a submission goroutine, with the sandbox client inlined -----

  datatype SubPc =
    | SNone
    | SPoll(name: string)
    | SGet(name: string)
    | SCreate(task: AgentTask)
    | SClaimTick(task: AgentTask, claim: string)
    | SClaim(task: AgentTask, claim: string)
    | SSandboxTick(task: AgentTask, claim: string, sandbox: string)
    | SSandbox(task: AgentTask, claim: string, sandbox: string)
    | SPodIP(task: AgentTask, handle: Handle)
    | SCleanup(task: AgentTask, claim: string)
    | STokens(task: AgentTask, handle: Handle)
    | SSubmit(task: AgentTask, handle: Handle, tokens: Tokens)
    | SClose(task: AgentTask, handle: Handle)
    | SSleep(name: string)
    | SWrite(task: AgentTask, second: bool)
    | SRemove(name: string)

  function SubAct(pc: SubPc): Action {
    match pc
    case SNone => Nothing
    case SPoll(_) => PollContext
    case SGet(name) => GetTask(name)
    case SCreate(task) => CreateClaim(WarmPool(task.spec.sandboxTemplate))
    case SClaimTick(_, _) => PollContext
    case SClaim(_, claim) => GetClaim(claim)
    case SSandboxTick(_, _, _) => PollContext
    case SSandbox(_, _, sandbox) => GetSandbox(sandbox)
    case SPodIP(_, handle) => GetPod(handle.pod)
    case SCleanup(_, claim) => CloseClaim(claim)
    case STokens(task, _) => GenerateTokens(task.name)
    case SSubmit(task, handle, tokens) => SubmitTask(handle, BuildRequest(task, tokens))
    case SClose(_, handle) => CloseClaim(handle.claim)
    case SSleep(_) => Sleep
    case SWrite(task, second) => if second then WriteObject(task) else WriteStatus(task)
    case SRemove(name) => Unregister(name)
  }

  function SubNext(cfg: Config, pc: SubPc, r: Response): SubPc {
    match pc
    case SNone => SNone
    case SPoll(name) => if r == Flag(true) then SRemove(name) else SGet(name)
    case SGet(name) =>
      if !r.GotTask? || r.task.status.state != Started then SRemove(name)
      else if r.task.spec.sandboxTemplate == "" then SSleep(r.task.name)
      else SCreate(r.task)
    case SCreate(task) => if r.Text? then SClaimTick(task, r.text) else SSleep(task.name)
    case SClaimTick(task, claim) => if r == Flag(true) then SCleanup(task, claim) else SClaim(task, claim)
    case SClaim(task, claim) =>
      if !r.Text? then SCleanup(task, claim)
      else if r.text == "" then SClaimTick(task, claim)
      else SSandboxTick(task, claim, r.text)
    case SSandboxTick(task, claim, sandbox) =>
      if r == Flag(true) then SCleanup(task, claim) else SSandbox(task, claim, sandbox)
    case SSandbox(task, claim, sandbox) =>
      if !r.GotSandbox? then SCleanup(task, claim)
      else if !IsReady(r.sandbox.conditions) then SSandboxTick(task, claim, sandbox)
      else SPodIP(task, Handle(claim, sandbox, PodOf(r.sandbox, sandbox), FirstIP(r.sandbox.podIPs)))
    case SPodIP(task, handle) =>
      STokens(task, if r.GotPod? then handle.(ip := r.pod.ip) else handle)
    case SCleanup(task, _) => SSleep(task.name)
    case STokens(task, handle) => if r.GotTokens? then SSubmit(task, handle, r.tokens) else SClose(task, handle)
    case SSubmit(task, handle, _) =>
      if r.Done? then SWrite(WithSandbox(task, handle), false)
      else if cfg.repaired then SClose(task, handle)
      else SSleep(task.name)
    case SClose(task, _) => SSleep(task.name)
    case SSleep(name) => if r == Flag(true) then SRemove(name) else SPoll(name)
    case SWrite(task, second) => if r.GotTask? || r.Garbled? || second then SRemove(task.name) else SWrite(task, true)
    case SRemove(_) => SNone
  }

  function WithSandbox(task: AgentTask, h: Handle): AgentTask {
    task.(status := task.status.(state := Running, claimName := h.claim, sandboxName := h.sandbox, podName := h.pod))
  }

  function BuildRequest(task: AgentTask, tokens: Tokens): TaskRequest {
    TaskRequest(task.name, tokens.callbackToken, tokens.gitHubToken, task.spec.repoOwner, task.spec.repoName,
                task.spec.taskOwner, task.spec.taskOwnerEmail, task.spec.taskType, task.spec.prompt, task.spec.issueNumber)
  }

  /** "x-template" is served by "x-warmpool". */
  function WarmPool(template: string): string {
    var suffix := "-template";
    (if |suffix| <= |template| && template[|template| - |suffix|..] == suffix
     then template[..|template| - |suffix|] else template) + "-warmpool"
  }

  /** The suffix is replaced when it is there, and only appended to otherwise. */
  lemma WarmPoolNames(stem: string, template: string)
    ensures WarmPool(stem + "-template") == stem + "-warmpool"
    ensures !(exists s :: template == s + "-template") ==> WarmPool(template) == template + "-warmpool"
  {
    var suffix := "-template";
    assert (stem + suffix)[..|stem + suffix| - |suffix|] == stem;
    if |suffix| <= |template| && template[|template| - |suffix|..] == suffix {
      assert template == template[..|template| - |suffix|] + suffix;
    }
  }

  predicate IsReady(conditions: seq<(string, string)>) {
    ("Ready", "True") in conditions
  }

  function PodOf(s: SandboxStatus, sandboxName: string): string {
    if s.podAnnotation != "" then s.podAnnotation else sandboxName
  }

  function FirstIP(ips: seq<string>): string {
    if |ips| > 0 then ips[0] else ""
  }

  // ----- a callback handler -----

  datatype CbPc =
    | CGet(req: CallbackRequest)
    | CVerify(req: CallbackRequest, task: AgentTask)
    | CConsume(req: CallbackRequest, task: AgentTask)
    | CPost(req: CallbackRequest, task: AgentTask)
    | CWrite(req: CallbackRequest, task: AgentTask, second: bool)
    | CReplied(code: int)

  function CbAct(pc: CbPc): Action {
    match pc
    case CGet(req) => GetTask(req.taskName)
    case CVerify(req, _) => VerifyToken(req.taskName, req.token)
    case CConsume(req, _) => ConsumeToken(req.taskName)
    case CPost(req, task) => PostComment(task.spec.repoOwner, task.spec.repoName, task.spec.issueNumber, req.response)
    case CWrite(_, task, second) => if second then WriteObject(task) else WriteStatus(task)
    case CReplied(_) => Nothing
  }

  function CbNext(pc: CbPc, r: Response): CbPc {
    match pc
    case CGet(req) =>
      if r.Garbled? then CReplied(500)
      else if !r.GotTask? then CReplied(404)
      else if req.token == "" then CReplied(401)
      else CVerify(req, r.task)
    case CVerify(req, task) =>
      if !r.Flag? then CReplied(500) else if !r.b then CReplied(401) else CConsume(req, task)
    case CConsume(req, task) => if r.Done? then CPost(req, task) else CReplied(500)
    case CPost(req, task) => if r.Done? then CWrite(req, task.WithState(Completed), false) else CReplied(500)
    case CWrite(req, task, second) =>
      if r.GotTask? || r.Garbled? then CReplied(200) else if second then CReplied(500) else CWrite(req, task, true)
    case CReplied(code) => CReplied(code)
  }

  // ----- a token handler -----

  datatype TokPc =
    | TGet(name: string)
    | TMint(task: AgentTask)
    | TRandom(name: string, gitHubToken: string)
    | TStore(name: string, tokens: Tokens)
    | TReplied(code: int, tokens: Tokens)

  const NO_TOKENS := Tokens("", "")

  function TokAct(pc: TokPc): Action {
    match pc
    case TGet(name) => GetTask(name)
    case TMint(task) => MintToken(task.spec.repoOwner, task.spec.repoName)
    case TRandom(_, _) => RandomToken
    case TStore(name, tokens) => StoreToken(name, tokens.callbackToken)
    case TReplied(_, _) => Nothing
  }

  function TokNext(pc: TokPc, r: Response): TokPc {
    match pc
    case TGet(_) =>
      if r.Garbled? then TReplied(500, NO_TOKENS)
      else if !r.GotTask? then TReplied(404, NO_TOKENS)
      else if r.task.spec.repoOwner == "" || r.task.spec.repoName == "" then TReplied(400, NO_TOKENS)
      else TMint(r.task)
    case TMint(task) => if r.Text? then TRandom(task.name, r.text) else TReplied(500, NO_TOKENS)
    case TRandom(name, gh) => if r.Text? then TStore(name, Tokens(r.text, gh)) else TReplied(500, NO_TOKENS)
    case TStore(_, tokens) => if r.Done? then TReplied(200, tokens) else TReplied(500, NO_TOKENS)
    case TReplied(code, tokens) => TReplied(code, tokens)
  }

  // ----- a sandbox's runner, from the moment it has a result to report -----

  const MAX_TRIES := 5

  datatype RunnerPc =
    | RReport(pod: string, token: string, tries: nat)
    | RWait(pod: string, token: string, tries: nat, call: nat)
    | RExited(pod: string, code: int)

  /** What the runner does once a try is over: it leaves with 0 if the report was accepted, tries again while
      tries are left and the retry policy goes on, and leaves with 1 otherwise. */
  function RunnerNext(pc: RunnerPc, accepted: bool, goesOn: bool): RunnerPc {
    match pc
    case RWait(pod, token, tries, _) =>
      if accepted then RExited(pod, 0)
      else if tries + 1 < MAX_TRIES && goesOn then RReport(pod, token, tries + 1)
      else RExited(pod, 1)
    case _ => pc
  }
}
