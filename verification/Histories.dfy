/** What each agent calls next, said from its history alone: from the calls it has made and the answers it got,
    in the terms of those calls, with no program counter and none of the automata's functions. The automata of
    Protocol.dfy are shown to say exactly the same. */
module Histories {
  import opened AgentTasks
  import opened Protocol
  import opened Threads

  // ----- what an agent has been told -----

  /** The latest AgentTask that the server returned. */
  ghost function LastTask(log: Log): Option<AgentTask> {
    match log
    case Begin => None
    case Then(before, a, r) => if ReturnsTask(a) && r.GotTask? then Some(r.task) else LastTask(before)
  }

  predicate ReturnsTask(a: Action) { a.GetTask? || a.WriteStatus? || a.WriteObject? }

  ghost function LastClaim(log: Log): Option<string> {
    match log
    case Begin => None
    case Then(before, a, r) => if a.CreateClaim? && r.Text? then Some(r.text) else LastClaim(before)
  }

  /** The name that the claim got for its sandbox. */
  ghost function LastName(log: Log): Option<string> {
    match log
    case Begin => None
    case Then(before, a, r) => if a.GetClaim? && r.Text? then Some(r.text) else LastName(before)
  }

  ghost function LastSandbox(log: Log): Option<SandboxStatus> {
    match log
    case Begin => None
    case Then(before, a, r) => if a.GetSandbox? && r.GotSandbox? then Some(r.sandbox) else LastSandbox(before)
  }

  /** The latest answer to a question for a pod. */
  ghost function LastPod(log: Log): Option<Response> {
    match log
    case Begin => None
    case Then(before, a, r) => if a.GetPod? then Some(r) else LastPod(before)
  }

  /** The log up to its latest writes. */
  ghost function UpToWrites(log: Log): Log {
    if log.Then? && (log.action.WriteStatus? || log.action.WriteObject?) then UpToWrites(log.before) else log
  }

  // ----- the reconcile loop -----

  /** Writes the task through the status endpoint with this state, and otherwise as it was read. */
  ghost predicate WritesState(a: Action, task: AgentTask, state: TaskState) {
    a == WriteStatus(task.(status := task.status.(state := state)))
  }

  ghost predicate WritesRetry(maxRetries: nat, a: Action, task: AgentTask) {
    && task.status.retries < maxRetries
    && a == WriteStatus(task.(status := task.status.(state := Started, retries := task.status.retries + 1)))
  }

  /** The first call after the task was read. */
  ghost predicate CallsFor(maxRetries: nat, task: AgentTask, a: Action) {
    match task.status.state
    case Unset => WritesState(a, task, Pending)
    case Pending => ValidSpec(task.spec) && WritesState(a, task, Started)
    case Started => a == LookUp(task.name)
    case Running => task.status.podName != "" && a == GetPod(task.status.podName)
    case Completed => a == if task.status.claimName != "" then CloseClaim(task.status.claimName) else DeleteTask(task.name)
    case Failed =>
      if task.status.claimName != "" then a == CloseClaim(task.status.claimName) else WritesRetry(maxRetries, a, task)
    case _ => false
  }

  /** After a write that succeeded: a new Pending task is started, a task whose names were cleared is retried. */
  ghost predicate CallsAfterWrite(maxRetries: nat, before: Log, written: AgentTask, answer: AgentTask, a: Action) {
    if written.status.state == Pending then ValidSpec(answer.spec) && WritesState(a, answer, Started)
    else if written.status.state == Failed && EndsInClose(before) then WritesRetry(maxRetries, a, answer)
    else false
  }

  ghost predicate EndsInClose(log: Log) { log.Then? && log.action.CloseClaim? }

  ghost predicate CallsAfterPod(task: AgentTask, r: Response, a: Action) {
    || (r.GotPod? && PodSucceeds(r.pod) && WritesState(a, task, Completed))
    || (r.GotPod? && PodFails(r.pod) && WritesState(a, task, Failed))
    || (r.NotFound? && WritesState(a, task, Failed))
  }

  ghost predicate CallsAfterClose(task: AgentTask, r: Response, a: Action) {
    && (r.Done? || r.NotFound?)
    && (task.status.state == Completed ==> a == DeleteTask(task.name))
    && (task.status.state != Completed ==>
          a == WriteStatus(task.(status := task.status.(claimName := "", sandboxName := "", podName := ""))))
  }

  /** The call that one synchronization step makes next, after this history. */
  ghost predicate LoopCalls(maxRetries: nat, name: string, log: Log, a: Action) {
    if log.Begin? then a == GetTask(name)
    else
      var before, r := log.before, log.response;
      match log.action
      case GetTask(_) => r.GotTask? && CallsFor(maxRetries, r.task, a)
      case WriteStatus(task) =>
        if r.GotTask? then CallsAfterWrite(maxRetries, UpToWrites(before), task, r.task, a)
        else !r.Garbled? && a == WriteObject(task)
      case WriteObject(task) => r.GotTask? && CallsAfterWrite(maxRetries, UpToWrites(before), task, r.task, a)
      case LookUp(n) => r != Flag(true) && a == Register(n)
      case Register(n) => a == Spawn(n)
      case GetPod(_) => LastTask(before).Some? && CallsAfterPod(LastTask(before).value, r, a)
      case CloseClaim(_) => LastTask(before).Some? && CallsAfterClose(LastTask(before).value, r, a)
      case _ => false
  }

  /** A write of this task: the status endpoint first and, after an error, the whole object. */
  ghost predicate Updates(before: Log, log: Log, task: AgentTask) {
    log.Then? &&
    if log.action.WriteStatus? then
      log.before == before && log.action == WriteStatus(task) && (log.response.GotTask? || log.response.Garbled?)
    else
      && log.action == WriteObject(task)
      && log.before.Then? && log.before == Then(before, WriteStatus(task), log.before.response)
      && !log.before.response.GotTask? && !log.before.response.Garbled?
  }

  /** The branch of a Running task: the pod is asked for, and what it says is written. */
  ghost predicate FollowsPod(before: Log, log: Log, task: AgentTask, answer: Response) {
    var asked := Then(before, GetPod(task.status.podName), answer);
    var completed := task.(status := task.status.(state := Completed));
    var failed := task.(status := task.status.(state := Failed));
    if answer.GotPod? && PodSucceeds(answer.pod) then Updates(asked, log, completed)
    else if answer.NotFound? || (answer.GotPod? && PodFails(answer.pod)) then Updates(asked, log, failed)
    else log == asked
  }

  // ----- the submission goroutine -----

  /** The warm pool of a template: "x-warmpool" for "x-template", and otherwise the name with "-warmpool" appended. */
  ghost predicate IsPoolOf(template: string, pool: string) {
    || (exists stem :: template == stem + "-template" && pool == stem + "-warmpool")
    || ((forall stem :: template != stem + "-template") && pool == template + "-warmpool")
  }

  /** Every field of a request comes from the field of the same name. */
  ghost predicate Carries(req: TaskRequest, task: AgentTask, tokens: Tokens) {
    && req.taskName == task.name
    && req.callbackToken == tokens.callbackToken
    && req.gitHubToken == tokens.gitHubToken
    && req.repoOwner == task.spec.repoOwner
    && req.repoName == task.spec.repoName
    && req.taskOwner == task.spec.taskOwner
    && req.taskOwnerEmail == task.spec.taskOwnerEmail
    && req.taskType == task.spec.taskType
    && req.prompt == task.spec.prompt
    && req.issueNumber == task.spec.issueNumber
  }

  /** The pod is named by the sandbox's annotation, or like the sandbox. */
  ghost predicate NamesPod(sandbox: SandboxStatus, sandboxName: string, pod: string) {
    pod == if sandbox.podAnnotation != "" then sandbox.podAnnotation else sandboxName
  }

  /** The address is the pod's own or, without an answer about the pod, the first of the sandbox's addresses. */
  ghost predicate IsAddress(sandbox: SandboxStatus, answer: Response, ip: string) {
    if answer.GotPod? then ip == answer.pod.ip
    else if |sandbox.podIPs| > 0 then ip == sandbox.podIPs[0]
    else ip == ""
  }

  /** The handle of the sandbox that was made. */
  ghost predicate IsHandle(log: Log, h: Handle) {
    && LastClaim(log) == Some(h.claim)
    && LastName(log) == Some(h.sandbox)
    && LastSandbox(log).Some? && NamesPod(LastSandbox(log).value, h.sandbox, h.pod)
    && LastPod(log).Some? && IsAddress(LastSandbox(log).value, LastPod(log).value, h.ip)
  }

  /** The log ends in the submission of this task to the sandbox `h`, with the tokens that were generated for it
      just before. */
  ghost predicate Delivers(before: Log, log: Log, task: AgentTask, h: Handle) {
    && log.Then? && log.action.SubmitTask? && log.before.Then?
    && log.before.before == before
    && log.before.action == GenerateTokens(task.name) && log.before.response.GotTokens?
    && log.action.handle == h
    && Carries(log.action.req, task, log.before.response.tokens)
  }

  ghost predicate ClosesLast(log: Log, a: Action) {
    a.CloseClaim? && LastClaim(log) == Some(a.claim)
  }

  /** After a look at the context, which is taken at the start of a pass and in the two polling loops. */
  ghost predicate CallsAfterPoll(name: string, before: Log, cancelled: bool, a: Action) {
    if before.Begin? || before.action.Sleep? then
      a == if cancelled then Unregister(name) else GetTask(name)
    else if cancelled then ClosesLast(before, a)
    else if before.action.CreateClaim? || (before.action.GetClaim? && before.response == Text("")) then
      a.GetClaim? && LastClaim(before) == Some(a.claim)
    else
      a.GetSandbox? && LastName(before) == Some(a.name)
  }

  ghost predicate CallsAfterRead(name: string, r: Response, a: Action) {
    if !r.GotTask? || r.task.status.state != Started then a == Unregister(name)
    else if r.task.spec.sandboxTemplate == "" then a == Sleep
    else a.CreateClaim? && IsPoolOf(r.task.spec.sandboxTemplate, a.warmPool)
  }

  ghost predicate CallsAfterSandbox(before: Log, r: Response, a: Action) {
    if !r.GotSandbox? then ClosesLast(before, a)
    else if ("Ready", "True") in r.sandbox.conditions then
      a.GetPod? && LastName(before).Some? && NamesPod(r.sandbox, LastName(before).value, a.name)
    else a == PollContext
  }

  ghost predicate CallsAfterTokens(before: Log, r: Response, a: Action) {
    if r.GotTokens? then
      a.SubmitTask? && IsHandle(before, a.handle) && LastTask(before).Some? && Carries(a.req, LastTask(before).value, r.tokens)
    else ClosesLast(before, a)
  }

  ghost predicate CallsAfterSubmit(repaired: bool, before: Log, h: Handle, r: Response, a: Action) {
    if r.Done? then
      && LastTask(before).Some?
      && var task := LastTask(before).value;
         a == WriteStatus(task.(status := task.status.(state := Running, claimName := h.claim,
                                                       sandboxName := h.sandbox, podName := h.pod)))
    else a == if repaired then CloseClaim(h.claim) else Sleep
  }

  /** The call that a submission goroutine makes next, after this history. */
  ghost predicate GoroutineCalls(repaired: bool, name: string, log: Log, a: Action) {
    if log.Begin? then a == PollContext
    else
      var before, r := log.before, log.response;
      match log.action
      case PollContext => CallsAfterPoll(name, before, r == Flag(true), a)
      case GetTask(_) => CallsAfterRead(name, r, a)
      case CreateClaim(_) => a == if r.Text? then PollContext else Sleep
      case GetClaim(claim) => a == if r.Text? then PollContext else CloseClaim(claim)
      case GetSandbox(_) => CallsAfterSandbox(before, r, a)
      case GetPod(_) => a == GenerateTokens(name)
      case GenerateTokens(_) => CallsAfterTokens(before, r, a)
      case SubmitTask(h, _) => CallsAfterSubmit(repaired, before, h, r, a)
      case CloseClaim(_) => a == Sleep
      case Sleep => a == if r == Flag(true) then Unregister(name) else PollContext
      case WriteStatus(task) => a == if r.GotTask? || r.Garbled? then Unregister(name) else WriteObject(task)
      case WriteObject(_) => a == Unregister(name)
      case _ => false
  }

  // ----- the callback handler -----

  ghost predicate CallbackCalls(req: CallbackRequest, log: Log, a: Action) {
    if log.Begin? then a == GetTask(req.taskName)
    else
      var before, r := log.before, log.response;
      match log.action
      case GetTask(_) => r.GotTask? && req.token != "" && a == VerifyToken(req.taskName, req.token)
      case VerifyToken(_, _) => r == Flag(true) && a == ConsumeToken(req.taskName)
      case ConsumeToken(_) =>
        && r.Done? && LastTask(before).Some?
        && var spec := LastTask(before).value.spec;
           a == PostComment(spec.repoOwner, spec.repoName, spec.issueNumber, req.response)
      case PostComment(_, _, _, _) => r.Done? && LastTask(before).Some? && WritesState(a, LastTask(before).value, Completed)
      case WriteStatus(task) => !r.GotTask? && !r.Garbled? && a == WriteObject(task)
      case _ => false
  }

  /** A verified callback, answered: the token of the request's task was deleted, the response was posted on the
      task's own issue, and the task was written as Completed. */
  ghost predicate Answers(before: Log, log: Log, req: CallbackRequest, task: AgentTask) {
    var deleted := Then(before, ConsumeToken(req.taskName), Done);
    var posted := Then(deleted, PostComment(task.spec.repoOwner, task.spec.repoName, task.spec.issueNumber, req.response), Done);
    && Updates(posted, log, task.(status := task.status.(state := Completed)))
    && (log.response.GotTask? || log.response.Garbled?)
  }

  /** The answer to the callback, when nothing is left to call. */
  ghost predicate CallbackReplies(req: CallbackRequest, log: Log, code: int) {
    log.Then? &&
    var r := log.response;
    match log.action
    case GetTask(_) =>
      if r.Garbled? then code == 500 else if !r.GotTask? then code == 404 else req.token == "" && code == 401
    case VerifyToken(_, _) => if !r.Flag? then code == 500 else !r.b && code == 401
    case ConsumeToken(_) => !r.Done? && code == 500
    case PostComment(_, _, _, _) => !r.Done? && code == 500
    case WriteStatus(_) => (r.GotTask? || r.Garbled?) && code == 200
    case WriteObject(_) => code == if r.GotTask? || r.Garbled? then 200 else 500
    case _ => false
  }

  // ----- the token handler -----

  ghost predicate TokenCalls(name: string, log: Log, a: Action) {
    if log.Begin? then a == GetTask(name)
    else
      var r := log.response;
      match log.action
      case GetTask(_) =>
        && r.GotTask? && r.task.spec.repoOwner != "" && r.task.spec.repoName != ""
        && a == MintToken(r.task.spec.repoOwner, r.task.spec.repoName)
      case MintToken(_, _) => r.Text? && a == RandomToken
      case RandomToken => r.Text? && a == StoreToken(name, r.text)
      case _ => false
  }

  ghost predicate TokenReplies(log: Log, code: int, tokens: Tokens) {
    log.Then? &&
    var r := log.response;
    var failed := tokens.callbackToken == "" && tokens.gitHubToken == "";
    match log.action
    case GetTask(_) =>
      && failed
      && if r.Garbled? then code == 500
         else if !r.GotTask? then code == 404
         else (r.task.spec.repoOwner == "" || r.task.spec.repoName == "") && code == 400
    case MintToken(_, _) => failed && !r.Text? && code == 500
    case RandomToken => failed && !r.Text? && code == 500
    case StoreToken(_, token) =>
      if r.Done? then code == 200 && tokens.callbackToken == token && Minted(log.before, tokens.gitHubToken)
      else failed && code == 500
    case _ => false
  }

  /** The answer to MintToken, two calls back. */
  ghost predicate Minted(log: Log, gitHubToken: string) {
    log.Then? && log.before.Then? && log.before.action.MintToken? && log.before.response == Text(gitHubToken)
  }
}
