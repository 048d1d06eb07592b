/** One AgentTask and everything that acts on it concurrently: the reconcile loop, the submission
    goroutine, any number of callback and token handlers, and the sandbox pods. Every call is one
    atomic step on the shared state; between two calls of one agent the others may take any steps. */
module World {
  import opened AgentTasks
  import opened Protocol
  import TokenStores

  /** What happened to the SandboxClaims made for this task. `live` is the cluster's own set;
      the other sets record events of the run. */
  datatype Ledger = Ledger(
    live: set<string>,
    created: set<string>,
    recorded: set<string>,          // named at some time in the stored status
    lostCreates: set<string>,       // created, but the creator was told of an error
    submitErrors: set<string>,      // SubmitTask reported an error
    lostWrites: set<string>,        // both attempts of the Running write reported an error
    failedCleanups: set<string>)    // the cleanup delete reported an error

  /** The callback tokens. The store is shared by all tasks and goes by task name; the rest is about the tokens of
      this task. Maps are from handler number to the token it presented. */
  datatype Answers = Answers(
    task: string,                   // the name of this task
    tokens: map<string, string>,    // the token store
    minted: set<string>,            // every token ever generated
    issued: seq<string>,            // tokens stored, oldest first
    verified: map<nat, string>,     // handlers whose verification succeeded
    used: map<nat, string>,         // handlers that also deleted the token
    posted: map<nat, string>,       // handlers that attempted PostComment
    delivered: map<nat, string>,    // handlers whose PostComment succeeded
    overlapped: set<string>)        // tokens verified by one handler between another's verify and delete of the same
  {
    /** The token stored for this task. */
    function Token(): Option<string> {
      if task in tokens then Some(tokens[task]) else None
    }
  }

  datatype World = World(
    obj: Option<AgentTask>,         // None once deleted
    changes: nat,                   // content-changing commits and deletions so far
    runs: nat,                      // commits that entered Running so far
    loop: LoopPc,
    reg: Option<nat>,               // the entry of activeTasks: the number of the goroutine it belongs to
    spawned: nat,                   // entries made so far
    sub: SubPc,
    subId: nat,                     // number of the live goroutine
    cbs: seq<CbPc>,
    toks: seq<TokPc>,
    ledger: Ledger,
    accepted: map<string, Handle>,  // sandboxes that took the task, by their claims
    answers: Answers,
    runners: seq<RunnerPc>)         // the sandboxes' runners that have a result to report

  /** `hit` says whether a write or delete took effect, whatever the caller is told. `lost` names
      a claim whose creation took effect although the creator is told of an error. */
  datatype Step =
    | BeginReconcile(name: string)
    | Loop(r: Response, hit: bool)
    | Sub(r: Response, hit: bool, lost: string)
    | NewCallback(req: CallbackRequest)
    | Callback(i: nat, r: Response, hit: bool)
    | NewTokenRequest(name: string)
    | TokenRequest(i: nat, r: Response, hit: bool)
    | StartRunner(pod: string, token: string)
    | RunnerStops(i: nat, code: int)
    | RunnerCalls(i: nat, req: CallbackRequest)
    | RunnerHears(i: nat, heard: bool, goesOn: bool)
    | OtherTokens(tokens: map<string, string>)   // the handlers of other tasks use the token store

  /** A new task. Other tasks may have tokens stored; names are not used again. */
  function Init(name: string, meta: Metadata, spec: Spec, initialized: bool, tokens: map<string, string>): World {
    World(Some(AgentTask(name, 0, meta, spec, Status(if initialized then Pending else Unset, 0, "", "", ""))), 0, 0,
          LIdle, None, 0, SNone, 0, [], [],
          Ledger({}, {}, {}, {}, {}, {}, {}), map[],
          Answers(name, tokens, {}, [], map[], map[], map[], map[], {}), [])
  }

  // ----- the shared state's answers and effects -----

  predicate Current(obj: Option<AgentTask>, task: AgentTask) {
    obj.Some? && obj.value.version == task.version
  }

  /** The object a write leaves behind. A write that changes nothing keeps the version. */
  function Written(before: AgentTask, task: AgentTask, wholeObject: bool): AgentTask {
    var content := if wholeObject then task else before.(status := task.status);
    if content == before then before else content.(version := before.version + 1)
  }

  predicate WritePossible(obj: Option<AgentTask>, task: AgentTask, whole: bool, r: Response, hit: bool) {
    && (r.GotTask? || r.Garbled? || r.Failure? || r.NotFound?)
    && (hit ==> Current(obj, task))
    && (r.Garbled? ==> hit)
    && (r.GotTask? ==> hit && r.task == Written(obj.value, task, whole))
  }

  predicate ReadPossible(obj: Option<AgentTask>, r: Response) {
    match r
    case GotTask(task) => obj == Some(task)
    case Garbled => obj.Some?
    case NotFound => obj.None?
    case Failure => true
    case _ => false
  }

  predicate DeletePossible(present: bool, r: Response, hit: bool) {
    match r
    case Done => present && hit
    case NotFound => !present && !hit
    case Failure => hit ==> present
    case _ => false
  }

  function Commit(w: World, task: AgentTask, whole: bool, hit: bool): World
    requires hit ==> Current(w.obj, task)
  {
    if !hit || Written(w.obj.value, task, whole) == w.obj.value then w
    else
      var after := Written(w.obj.value, task, whole);
      w.(obj := Some(after),
         changes := w.changes + 1,
         runs := if after.status.state == Running && w.obj.value.status.state != Running then w.runs + 1 else w.runs,
         ledger := if after.status.claimName == "" then w.ledger
                   else w.ledger.(recorded := w.ledger.recorded + {after.status.claimName}))
  }

  function Drop(w: World, claim: string, hit: bool): World {
    if hit then w.(ledger := w.ledger.(live := w.ledger.live - {claim})) else w
  }

  // ----- steps of the reconcile loop -----

  /** The pod's runner returned 0. */
  predicate LeftWithZero(w: World, pod: string) {
    exists i :: 0 <= i < |w.runners| && w.runners[i] == RExited(pod, 0)
  }

  predicate LoopPossible(cfg: Config, w: World, r: Response, hit: bool) {
    match w.loop
    case LIdle => false
    case LGet(_) => ReadPossible(w.obj, r)
    case LWrite(task, second, _) => WritePossible(w.obj, task, second, r, hit)
    case LLookup(_) => r == Flag(w.reg.Some?)
    case LInsert(_) => r == Done
    case LSpawn(_) => r == Done
    case LPod(task) =>
      cfg.faithful && r.GotPod? && Verdict(r.pod) == Some(Completed) ==> LeftWithZero(w, task.status.podName)
    case LClose(task) => DeletePossible(task.status.claimName in w.ledger.live, r, hit)
    case LDelete(task) => DeletePossible(w.obj.Some?, r, hit)
  }

  function LoopEffect(w: World, r: Response, hit: bool): World
    requires w.loop.LWrite? && hit ==> Current(w.obj, w.loop.task)
  {
    match w.loop
    case LWrite(task, second, _) => Commit(w, task, second, hit)
    case LInsert(_) => w.(reg := Some(w.spawned), spawned := w.spawned + 1)
    case LSpawn(task) => w.(sub := SPoll(task.name), subId := if w.reg.Some? then w.reg.value else 0)
    case LClose(task) => Drop(w, task.status.claimName, hit)
    case LDelete(_) => if hit then w.(obj := None, changes := w.changes + 1) else w
    case _ => w
  }

  // ----- steps of the submission goroutine -----

  predicate FreshClaim(w: World, claim: string) {
    claim != "" && claim !in w.ledger.created
  }

  predicate SubPossible(w: World, r: Response, hit: bool, lost: string) {
    match w.sub
    case SNone => false
    case SPoll(_) => r.Flag?
    case SGet(_) => ReadPossible(w.obj, r)
    case SCreate(_) => (r.Text? ==> FreshClaim(w, r.text)) && (!r.Text? && hit ==> FreshClaim(w, lost))
    case SClaimTick(_, _) => r.Flag?
    case SSandboxTick(_, _, _) => r.Flag?
    case SCleanup(_, claim) => DeletePossible(claim in w.ledger.live, r, hit)
    case SClose(_, handle) => DeletePossible(handle.claim in w.ledger.live, r, hit)
    case SWrite(task, second) => WritePossible(w.obj, task, second, r, hit)
    case SRemove(_) => r == Done
    case _ => true
  }

  function SubEffect(w: World, r: Response, hit: bool, lost: string): World
    requires w.sub.SWrite? && hit ==> Current(w.obj, w.sub.task)
  {
    match w.sub
    case SCreate(_) =>
      var L := w.ledger;
      if r.Text? then
        w.(ledger := L.(live := L.live + {r.text}, created := L.created + {r.text}))
      else if hit then
        w.(ledger := L.(live := L.live + {lost}, created := L.created + {lost}, lostCreates := L.lostCreates + {lost}))
      else w
    case SCleanup(_, claim) => CleanedUp(Drop(w, claim, hit), claim, r)
    case SClose(_, handle) => CleanedUp(Drop(w, handle.claim, hit), handle.claim, r)
    case SSubmit(_, handle, _) =>
      if r.Done? then w.(accepted := w.accepted[handle.claim := handle])
      else w.(ledger := w.ledger.(submitErrors := w.ledger.submitErrors + {handle.claim}))
    case SWrite(task, second) =>
      var w1 := Commit(w, task, second, hit);
      if second && !r.GotTask?
      then w1.(ledger := w1.ledger.(lostWrites := w1.ledger.lostWrites + {task.status.claimName}))
      else w1
    case SRemove(_) => w.(reg := None)
    case _ => w
  }

  function CleanedUp(w: World, claim: string, r: Response): World {
    if r.Failure? then w.(ledger := w.ledger.(failedCleanups := w.ledger.failedCleanups + {claim})) else w
  }

  // ----- the token store -----

  predicate TokenAccepted(tokens: map<string, string>, a: Action) {
    a.VerifyToken? && TokenStores.MemAccepts(tokens, a.name, a.token)
  }

  /** What a call leaves in the token store. */
  function TokensAfter(tokens: map<string, string>, a: Action): map<string, string> {
    match a
    case StoreToken(name, token) => TokenStores.MemStep(tokens, TokenStores.Store(name, token))
    case ConsumeToken(name) => TokenStores.MemStep(tokens, TokenStores.Delete(name))
    case _ => tokens
  }

  // ----- steps of callback handlers -----

  predicate CbPossible(w: World, i: nat, r: Response, hit: bool) {
    i < |w.cbs| &&
    match w.cbs[i]
    case CGet(_) => ReadPossible(w.obj, r)
    case CVerify(_, _) => r == Flag(true) ==> TokenAccepted(w.answers.tokens, CbAct(w.cbs[i]))
    case CConsume(_, _) => r.Done? ==> hit
    case CPost(_, _) => true
    case CWrite(_, task, second) => WritePossible(w.obj, task, second, r, hit)
    case CReplied(_) => false
  }

  function CbAnswers(A: Answers, cbs: seq<CbPc>, i: nat, r: Response, hit: bool): Answers
    requires i < |cbs|
  {
    match cbs[i]
    case CVerify(req, _) =>
      if r == Flag(true)
      then A.(verified := A.verified[i := req.token],
              overlapped := if exists j :: 0 <= j < |cbs| && cbs[j].CConsume? && cbs[j].req.token == req.token
                            then A.overlapped + {req.token} else A.overlapped)
      else A
    case CConsume(req, _) =>
      A.(tokens := if hit then TokensAfter(A.tokens, CbAct(cbs[i])) else A.tokens,
         used := if r.Done? then A.used[i := req.token] else A.used)
    case CPost(req, _) =>
      A.(posted := A.posted[i := req.token],
         delivered := if r.Done? then A.delivered[i := req.token] else A.delivered)
    case _ => A
  }

  function CbEffect(w: World, i: nat, r: Response, hit: bool): World
    requires i < |w.cbs|
    requires w.cbs[i].CWrite? && hit ==> Current(w.obj, w.cbs[i].task)
  {
    match w.cbs[i]
    case CWrite(_, task, second) => Commit(w, task, second, hit)
    case _ => w.(answers := CbAnswers(w.answers, w.cbs, i, r, hit))
  }

  // ----- steps of token handlers -----

  predicate TokPossible(w: World, i: nat, r: Response, hit: bool) {
    i < |w.toks| &&
    match w.toks[i]
    case TGet(_) => ReadPossible(w.obj, r)
    case TMint(_) => true
    case TRandom(_, _) => r.Text? && r.text !in w.answers.minted
    case TStore(_, _) => r.Done? ==> hit
    case TReplied(_, _) => false
  }

  function TokAnswers(A: Answers, tok: TokPc, r: Response, hit: bool): Answers {
    match tok
    case TRandom(_, _) => if r.Text? then A.(minted := A.minted + {r.text}) else A
    case TStore(name, tokens) =>
      if hit then
        A.(tokens := TokensAfter(A.tokens, TokAct(tok)),
           issued := if name == A.task then A.issued + [tokens.callbackToken] else A.issued)
      else A
    case _ => A
  }

  function TokEffect(w: World, i: nat, r: Response, hit: bool): World
    requires i < |w.toks|
  {
    w.(answers := TokAnswers(w.answers, w.toks[i], r, hit))
  }

  // ----- the sandboxes' runners -----

  /** The listener has answered the call with 200; a runner may or may not hear of it. */
  predicate Accepted(w: World, call: nat) {
    call < |w.cbs| && w.cbs[call] == CReplied(200)
  }

  // ----- the step relation and runs -----

  predicate Enabled(cfg: Config, w: World, step: Step) {
    match step
    case BeginReconcile(name) => w.loop.LIdle? && name == w.answers.task
    case Loop(r, hit) => LoopPossible(cfg, w, r, hit)
    case Sub(r, hit, lost) => SubPossible(w, r, hit, lost)
    case NewCallback(req) => req.taskName == w.answers.task
    case Callback(i, r, hit) => CbPossible(w, i, r, hit)
    case NewTokenRequest(name) => name == w.answers.task
    case TokenRequest(i, r, hit) => TokPossible(w, i, r, hit)
    case StartRunner(_, _) => true
    case RunnerStops(i, code) => i < |w.runners| && w.runners[i].RReport? && code != 0
    case RunnerCalls(i, req) =>
      && i < |w.runners| && w.runners[i].RReport?
      && req.token == w.runners[i].token && req.taskName == w.answers.task
    case RunnerHears(i, _, _) => i < |w.runners| && w.runners[i].RWait?
    case OtherTokens(tokens) => w.answers.(tokens := tokens).Token() == w.answers.Token()
  }

  function Apply(cfg: Config, w: World, step: Step): World
    requires Enabled(cfg, w, step)
  {
    match step
    case BeginReconcile(name) => w.(loop := LGet(name))
    case Loop(r, hit) => LoopEffect(w, r, hit).(loop := LoopNext(cfg, w.loop, r))
    case Sub(r, hit, lost) => SubEffect(w, r, hit, lost).(sub := SubNext(cfg, w.sub, r))
    case NewCallback(req) => w.(cbs := w.cbs + [CGet(req)])
    case Callback(i, r, hit) => CbEffect(w, i, r, hit).(cbs := w.cbs[i := CbNext(w.cbs[i], r)])
    case NewTokenRequest(name) => w.(toks := w.toks + [TGet(name)])
    case TokenRequest(i, r, hit) => TokEffect(w, i, r, hit).(toks := w.toks[i := TokNext(w.toks[i], r)])
    case StartRunner(pod, token) => w.(runners := w.runners + [RReport(pod, token, 0)])
    case RunnerStops(i, code) => w.(runners := w.runners[i := RExited(w.runners[i].pod, code)])
    case RunnerCalls(i, req) =>
      var pc := w.runners[i];
      w.(cbs := w.cbs + [CGet(req)], runners := w.runners[i := RWait(pc.pod, pc.token, pc.tries, |w.cbs|)])
    case RunnerHears(i, heard, goesOn) =>
      w.(runners := w.runners[i := RunnerNext(w.runners[i], heard && Accepted(w, w.runners[i].call), goesOn)])
    case OtherTokens(tokens) => w.(answers := w.answers.(tokens := tokens))
  }

  /** Where a sequence of steps leads, or None when one of them is not possible. */
  function RunFrom(cfg: Config, start: World, steps: seq<Step>): Option<World> {
    if steps == [] then Some(start)
    else
      var before := RunFrom(cfg, start, steps[..|steps| - 1]);
      var last := steps[|steps| - 1];
      if before.Some? && Enabled(cfg, before.value, last) then Some(Apply(cfg, before.value, last)) else None
  }

  ghost predicate IsInitial(w: World) {
    exists name, meta, spec, initialized, tokens :: name !in tokens && w == Init(name, meta, spec, initialized, tokens)
  }
}
