/** The sandbox's runner (Runner.Run in pkg/sandbox/server.go): an ordered sequence of effects that stops at
    the first failure, and at most five attempts to report the result. */
module Running {
  import opened AgentTasks
  import opened Protocol
  import opened Sanitizing

  datatype Effect =
    | MakeWorkspace(repo: string)
    | Clone(owner: string, repo: string, token: string)
    | Git(args: seq<string>)
    | RunAgent(bin: string, args: seq<string>)
    | GetRepository(owner: string, repo: string)
    | CreatePullRequest(head: string, issue: int)
    | Callback(token: string, task: string, response: string)

  /** `exit` is the exit code of a program that ran and failed. */
  datatype Reply = Ok(text: string) | Error(message: string, exit: Option<int>)

  function Branch(req: TaskRequest): string { "attribution-test-" + req.taskName }

  /** Everything up to the coding agent. */
  function Preparation(req: TaskRequest): seq<Effect> {
    [MakeWorkspace(req.repoName), Clone(req.repoOwner, req.repoName, req.gitHubToken)]
    + (if req.taskType != "pr" then []
       else [Git(["config", "user.name", req.taskOwner]), Git(["config", "user.email", req.taskOwnerEmail]),
             Git(["checkout", "-b", Branch(req)])])
  }

  function Pushing(req: TaskRequest): seq<Effect> {
    [Git(["status", "--porcelain"]), Git(["add", "-A"]),
     Git(["commit", "-m", "cloud-agent: automated commit for task " + req.taskName]),
     Git(["push", "-f", "origin", Branch(req)])]
  }

  function Opening(req: TaskRequest): seq<Effect> {
    [GetRepository(req.repoOwner, req.repoName), CreatePullRequest(Branch(req), req.issueNumber)]
  }

  /** Everything between the coding agent and the report. */
  function Publication(req: TaskRequest): seq<Effect> {
    if req.taskType != "pr" then [] else Pushing(req) + Opening(req)
  }

  function AgentArgs(bin: string, prompt: string, model: string): seq<string> {
    (if bin == "pi" then ["-p", prompt] else if bin == "opencode" then ["run", prompt] else [])
    + (if model != "" then ["--model", model] else [])
  }

  function Plan(req: TaskRequest, bin: string, model: string): seq<Effect> {
    Preparation(req) + [RunAgent(bin, AgentArgs(bin, req.prompt, model))] + Publication(req)
  }

  /** Unicode white space. */
  predicate IsSpace(c: char) {
    var u := c as int;
    || 0x09 <= u <= 0x0d || u == 0x20 || u == 0x85 || u == 0xa0 || u == 0x1680 || 0x2000 <= u <= 0x200a
    || u == 0x2028 || u == 0x2029 || u == 0x202f || u == 0x205f || u == 0x3000
  }

  function TrimSpace(s: string): string
    decreases |s|
  {
    if s == "" then ""
    else if IsSpace(s[0]) then TrimSpace(s[1..])
    else if IsSpace(s[|s| - 1]) then TrimSpace(s[..|s| - 1])
    else s
  }

  ghost predicate AllSpace(s: string) { forall i :: 0 <= i < |s| ==> IsSpace(s[i]) }

  ghost predicate Around(output: string, a: string, text: string, b: string) {
    AllSpace(a) && AllSpace(b) && output == a + text + b
  }

  /** The text is the output without its outer white space: some before it, some after it, and none of its own at
      either end. */
  ghost predicate IsTrimmed(output: string, text: string) {
    && (text != "" ==> !IsSpace(text[0]) && !IsSpace(text[|text| - 1]))
    && exists a, b :: Around(output, a, text, b)
  }

  lemma SpaceBefore(c: char, output: string, text: string)
    requires IsSpace(c) && IsTrimmed(output, text)
    ensures IsTrimmed([c] + output, text)
  {
    var a, b :| Around(output, a, text, b);
    assert [c] + (a + text + b) == ([c] + a) + text + b;
    assert Around([c] + output, [c] + a, text, b);
  }

  lemma SpaceAfter(c: char, output: string, text: string)
    requires IsSpace(c) && IsTrimmed(output, text)
    ensures IsTrimmed(output + [c], text)
  {
    var a, b :| Around(output, a, text, b);
    assert (a + text + b) + [c] == a + text + (b + [c]);
    assert Around(output + [c], a, text, b + [c]);
  }

  lemma NothingToTrim(s: string)
    requires s == "" || !(IsSpace(s[0]) || IsSpace(s[|s| - 1]))
    ensures IsTrimmed(s, s)
  {
    assert "" + s + "" == s;
    assert Around(s, "", s, "");
  }

  /** Trimming takes off the outer white space, all of it and nothing else. */
  lemma {:induction false} TrimIsExact(s: string)
    ensures IsTrimmed(s, TrimSpace(s))
    decreases |s|
  {
    if s == "" || !(IsSpace(s[0]) || IsSpace(s[|s| - 1])) {
      NothingToTrim(s);
    } else if IsSpace(s[0]) {
      TrimIsExact(s[1..]);
      SpaceBefore(s[0], s[1..], TrimSpace(s[1..]));
      assert [s[0]] + s[1..] == s;
    } else {
      TrimIsExact(s[..|s| - 1]);
      SpaceAfter(s[|s| - 1], s[..|s| - 1], TrimSpace(s[..|s| - 1]));
      assert s[..|s| - 1] + [s[|s| - 1]] == s;
    }
  }

  /** There is only one such text. */
  lemma TrimIsUnique(output: string, t: string, u: string)
    requires IsTrimmed(output, t) && IsTrimmed(output, u)
    ensures t == u
  {
    var a, b :| Around(output, a, t, b);
    var c, d :| Around(output, c, u, d);
    if t != "" {
      assert output[|a|] == t[0] && output[|a| + |t| - 1] == t[|t| - 1];
    }
    if u != "" {
      assert output[|c|] == u[0] && output[|c| + |u| - 1] == u[|u| - 1];
    }
    assert forall i :: 0 <= i < |a| ==> output[i] == a[i];
    assert forall i :: 0 <= i < |c| ==> output[i] == c[i];
    assert forall i :: 0 <= i < |b| ==> output[|a| + |t| + i] == b[i];
    assert forall i :: 0 <= i < |d| ==> output[|c| + |u| + i] == d[i];
    if t != "" && u != "" {
      assert |a| == |c|;
      assert t == output[|a|..|a| + |t|] && u == output[|c|..|c| + |u|];
    }
  }

  lemma TrimsToNothing(s: string)
    ensures TrimSpace(s) == "" <==> AllSpace(s)
  {
    TrimIsExact(s);
    var a, b :| Around(s, a, TrimSpace(s), b);
    if TrimSpace(s) != "" {
      assert s[|a|] == TrimSpace(s)[0];
    }
  }

  /** The world outside the runner. `effects` are the steps taken, `callbacks` the outcomes of the reports. */
  class Outside {
    const replies: nat -> Reply
    const patience: nat -> bool      // whether the retry policy goes on after a failed report
    var at: nat
    ghost var effects: seq<Effect>
    ghost var answers: seq<Reply>      // what they brought, in the same order
    ghost var failed: bool             // whether the latest effect failed
    ghost var callbacks: seq<bool>
    ghost var reports: seq<Effect>

    constructor (replies: nat -> Reply, patience: nat -> bool)
      ensures Valid() && effects == [] && answers == [] && callbacks == [] && reports == [] && !failed
    {
      this.replies := replies;
      this.patience := patience;
      at := 0;
      failed := false;
      effects := [];
      answers := [];
      callbacks := [];
      reports := [];
    }

    ghost predicate Valid()
      reads this
    {
      |answers| == |effects| && |reports| == |callbacks|
    }

    method Do(e: Effect) returns (r: Reply)
      requires Valid() && !e.Callback?
      modifies this
      ensures Valid()
      ensures effects == old(effects) + [e] && callbacks == old(callbacks) && reports == old(reports)
      ensures answers == old(answers) + [r]
      ensures r == replies(old(at)) && failed == r.Error?
    {
      r := replies(at);
      failed := r.Error?;
      at := at + 1;
      effects := effects + [e];
      answers := answers + [r];
    }

    method Report(e: Effect) returns (ok: bool)
      requires Valid() && e.Callback?
      modifies this
      ensures Valid()
      ensures effects == old(effects) && answers == old(answers) && failed == old(failed)
      ensures callbacks == old(callbacks) + [ok] && reports == old(reports) + [e]
    {
      var r := replies(at);
      ok := r.Ok?;
      at := at + 1;
      callbacks := callbacks + [ok];
      reports := reports + [e];
    }

    method GoesOn() returns (more: bool) {
      more := patience(at);
    }
  }

  datatype RunError = RunError(exitCode: int, message: string)

  /** The run was ended by git or by the coding agent. */
  ghost predicate EndedByTool(env: Outside)
    reads env
  {
    env.failed && env.effects != []
    && var last := env.effects[|env.effects| - 1]; last.Clone? || last.Git? || last.RunAgent?
  }

  /** A failure of git or of the coding agent shows the token only if the token survives its own mask. */
  ghost predicate HidesToken(f: RunError, token: string) {
    token != "" && Safe(token) ==> !Contains(f.message, token)
  }

  method Sanitized(message: string, token: string, exitCode: int) returns (f: RunError)
    ensures f.exitCode == exitCode && HidesToken(f, token)
  {
    f := RunError(exitCode, SanitizeError(Some(message), token).value);
    if token != "" && Safe(token) {
      SanitizedIsFree(message, token);
    }
  }

  method RunGit(env: Outside, req: TaskRequest, args: seq<string>) returns (out: string, err: Option<RunError>)
    requires env.Valid()
    modifies env
    ensures env.Valid() && old(env.answers) <= env.answers
    ensures err.Some? <==> env.failed
    ensures env.effects == old(env.effects) + [Git(args)]
    ensures env.callbacks == old(env.callbacks) && env.reports == old(env.reports)
    ensures err.Some? ==> err.value.exitCode == 1 && HidesToken(err.value, req.gitHubToken)
    ensures |env.answers| == |old(env.answers)| + 1
    ensures if err.None? then env.answers[|old(env.answers)|] == Ok(out) else env.answers[|old(env.answers)|].Error?
  {
    var r := env.Do(Git(args));
    if r.Error? {
      var f := Sanitized("git failed: " + r.message, req.gitHubToken, 1);
      return "", Some(f);
    }
    return r.text, None;
  }

  /** The response is the coding agent's output, trimmed. */
  ghost predicate ShowsOutput(effects: seq<Effect>, answers: seq<Reply>, response: string) {
    exists i :: ShowsAt(effects, answers, response, i)
  }

  ghost predicate ShowsAt(effects: seq<Effect>, answers: seq<Reply>, response: string, i: int) {
    && 0 <= i < |effects| && i < |answers|
    && effects[i].RunAgent? && answers[i].Ok? && IsTrimmed(answers[i].text, response)
  }

  /** The response names the pull request that was created. */
  ghost predicate NamesPullRequest(effects: seq<Effect>, answers: seq<Reply>, response: string) {
    exists i :: NamesAt(effects, answers, response, i)
  }

  ghost predicate NamesAt(effects: seq<Effect>, answers: seq<Reply>, response: string, i: int) {
    && 0 <= i < |effects| && i < |answers|
    && effects[i].CreatePullRequest? && answers[i].Ok? && response == "I have created a PR #" + answers[i].text
  }

  /** Workspace, clone, and for pull requests the attribution and the branch. */
  method Prepare(env: Outside, req: TaskRequest) returns (err: Option<RunError>)
    requires env.Valid()
    modifies env
    ensures env.Valid() && old(env.answers) <= env.answers
    ensures env.callbacks == old(env.callbacks) && env.reports == old(env.reports)
    ensures err.None? ==> env.effects == old(env.effects) + Preparation(req)
    ensures err.Some? ==> old(env.effects) <= env.effects <= old(env.effects) + Preparation(req)
    ensures err.Some? ==> err.value.exitCode == 1
    ensures err.Some? && EndedByTool(env) ==> HidesToken(err.value, req.gitHubToken)
    ensures err.None? ==> !env.failed
  {
    var r := env.Do(MakeWorkspace(req.repoName));
    if r.Error? {
      return Some(RunError(1, "failed to create workspace directory: " + r.message));
    }
    r := env.Do(Clone(req.repoOwner, req.repoName, req.gitHubToken));
    if r.Error? {
      var f := Sanitized("failed to clone repository: " + r.message, req.gitHubToken, 1);
      return Some(f);
    }
    if req.taskType == "pr" {
      var _, e1 := RunGit(env, req, ["config", "user.name", req.taskOwner]);
      if e1.Some? { return e1; }
      var _, e2 := RunGit(env, req, ["config", "user.email", req.taskOwnerEmail]);
      if e2.Some? { return e2; }
      var _, e3 := RunGit(env, req, ["checkout", "-b", Branch(req)]);
      if e3.Some? { return e3; }
    }
    err := None;
  }

  /** Commit and push. No change in the repository is an error: git has nothing but white space to say of its status,
      and nothing more is done. */
  method Push(env: Outside, req: TaskRequest) returns (err: Option<RunError>)
    requires env.Valid()
    modifies env
    ensures env.Valid() && old(env.answers) <= env.answers
    ensures env.callbacks == old(env.callbacks) && env.reports == old(env.reports)
    ensures |env.answers| > |old(env.answers)|
    ensures var status := env.answers[|old(env.answers)|];
            && (err.None? ==> status.Ok? && !AllSpace(status.text))
            && (status.Ok? && AllSpace(status.text) ==> err.Some? && |env.effects| == |old(env.effects)| + 1)
            && (status.Ok? && !AllSpace(status.text) ==> |env.effects| > |old(env.effects)| + 1)
    ensures err.None? ==> env.effects == old(env.effects) + Pushing(req)
    ensures err.Some? ==> old(env.effects) <= env.effects <= old(env.effects) + Pushing(req)
    ensures err.Some? ==> err.value.exitCode == 1
    ensures err.Some? && EndedByTool(env) ==> HidesToken(err.value, req.gitHubToken)
    ensures err.None? ==> !env.failed
  {
    var statusOut, e1 := RunGit(env, req, ["status", "--porcelain"]);
    if e1.Some? { return e1; }
    TrimsToNothing(statusOut);
    if TrimSpace(statusOut) == "" {
      return Some(RunError(1, "failed to make any changes to the repository"));
    }
    err := PushChanges(env, req);
  }

  method PushChanges(env: Outside, req: TaskRequest) returns (err: Option<RunError>)
    requires env.Valid()
    modifies env
    ensures env.Valid() && old(env.answers) <= env.answers && |env.answers| > |old(env.answers)|
    ensures env.callbacks == old(env.callbacks) && env.reports == old(env.reports)
    ensures err.None? ==> env.effects == old(env.effects) + Pushing(req)[1..]
    ensures err.Some? ==> old(env.effects) <= env.effects <= old(env.effects) + Pushing(req)[1..]
    ensures err.Some? ==> err.value.exitCode == 1
    ensures err.Some? && EndedByTool(env) ==> HidesToken(err.value, req.gitHubToken)
    ensures err.None? ==> !env.failed
  {
    var _, e2 := RunGit(env, req, ["add", "-A"]);
    if e2.Some? { return e2; }
    var _, e3 := RunGit(env, req, ["commit", "-m", "cloud-agent: automated commit for task " + req.taskName]);
    if e3.Some? { return e3; }
    var _, e4 := RunGit(env, req, ["push", "-f", "origin", Branch(req)]);
    if e4.Some? { return e4; }
    err := None;
  }

  /** Commit, push and open the pull request, and say which one it is. */
  method Publish(env: Outside, req: TaskRequest) returns (response: string, err: Option<RunError>)
    requires env.Valid() && req.taskType == "pr"
    modifies env
    ensures env.Valid() && old(env.answers) <= env.answers
    ensures err.None? ==> NamesPullRequest(env.effects, env.answers, response)
    ensures env.callbacks == old(env.callbacks) && env.reports == old(env.reports)
    ensures err.None? ==> env.effects == old(env.effects) + Publication(req)
    ensures err.Some? ==> old(env.effects) <= env.effects <= old(env.effects) + Publication(req)
    ensures err.Some? ==> err.value.exitCode == 1
    ensures err.Some? && EndedByTool(env) ==> HidesToken(err.value, req.gitHubToken)
    ensures err.None? ==> !env.failed
  {
    response := "";
    var pushed := Push(env, req);
    if pushed.Some? { return "", pushed; }
    var repo := env.Do(GetRepository(req.repoOwner, req.repoName));
    if repo.Error? {
      return "", Some(RunError(1, "failed to get repository: " + repo.message));
    }
    var pr := env.Do(CreatePullRequest(Branch(req), req.issueNumber));
    if pr.Error? {
      return "", Some(RunError(1, "failed to create PR: " + pr.message));
    }
    response := "I have created a PR #" + pr.text;
    assert NamesAt(env.effects, env.answers, response, |env.effects| - 1);
    return response, None;
  }

  /** Where the runner's automaton stands after some tries, given for each whether it was accepted and whether the
      retry policy would go on. */
  ghost function AfterTries(pod: string, token: string, heard: seq<(bool, bool)>): RunnerPc {
    if heard == [] then RReport(pod, token, 0)
    else
      var (accepted, goesOn) := heard[|heard| - 1];
      match AfterTries(pod, token, heard[..|heard| - 1])
      case RReport(p, t, tries) => RunnerNext(RWait(p, t, tries, 0), accepted, goesOn)
      case pc => pc
  }

  /** What was heard goes with the outcomes of the reports. */
  ghost predicate Heard(heard: seq<(bool, bool)>, callbacks: seq<bool>) {
    |heard| == |callbacks| && forall i :: 0 <= i < |heard| ==> heard[i].0 == callbacks[i]
  }

  /** Reports until one report is accepted, five were made, or the policy gives up, as the runner's automaton does. */
  method ReportResult(env: Outside, req: TaskRequest, response: string) returns (ok: bool, ghost heard: seq<(bool, bool)>)
    requires env.Valid() && env.callbacks == [] && env.reports == []
    modifies env
    ensures env.Valid() && env.answers == old(env.answers)
    ensures env.effects == old(env.effects) && env.failed == old(env.failed) && 1 <= |env.callbacks| <= 5
    ensures ok <==> true in env.callbacks
    ensures forall i :: 0 <= i < |env.callbacks| - 1 ==> !env.callbacks[i]
    ensures forall e :: e in env.reports ==> e == Callback(req.callbackToken, req.taskName, response)
    ensures Heard(heard, env.callbacks)
    ensures !ok ==> |env.callbacks| == 5 || !heard[|heard| - 1].1
    ensures forall pod :: AfterTries(pod, req.callbackToken, heard) == RExited(pod, if ok then 0 else 1)
  {
    ok, heard := false, [];
    var tries := 0;
    while tries < MAX_TRIES
      invariant 0 <= tries <= MAX_TRIES && |env.callbacks| == tries
      invariant env.Valid() && env.answers == old(env.answers)
      invariant env.effects == old(env.effects) && env.failed == old(env.failed)
      invariant !ok && forall i :: 0 <= i < tries ==> !env.callbacks[i]
      invariant forall e :: e in env.reports ==> e == Callback(req.callbackToken, req.taskName, response)
      invariant Heard(heard, env.callbacks)
      invariant forall pod :: AfterTries(pod, req.callbackToken, heard) ==
                              if tries < MAX_TRIES then RReport(pod, req.callbackToken, tries) else RExited(pod, 1)
    {
      ok := env.Report(Callback(req.callbackToken, req.taskName, response));
      tries := tries + 1;
      if ok {
        assert env.callbacks[tries - 1];
        heard := Hear(heard, true, true);
        return;
      }
      var more := env.GoesOn();
      heard := Hear(heard, false, more);
      if !more {
        return;
      }
    }
  }

  ghost function Hear(heard: seq<(bool, bool)>, accepted: bool, goesOn: bool): (r: seq<(bool, bool)>)
    ensures |r| == |heard| + 1 && r[|heard|] == (accepted, goesOn) && r[..|r| - 1] == heard
  {
    heard + [(accepted, goesOn)]
  }

  /** The exit code of the sandbox's process after the run. */
  function ProcessExit(err: Option<RunError>): int {
    if err.Some? then err.value.exitCode else 0
  }

  /** What a report says: what the coding agent said or, for a pull request, which one was created. */
  ghost predicate SaysResult(env: Outside, taskType: string, response: string)
    reads env
  {
    && (taskType != "pr" ==> ShowsOutput(env.effects, env.answers, response))
    && (taskType == "pr" ==> NamesPullRequest(env.effects, env.answers, response))
  }

  /** The exit code of a run that failed: that of the coding agent if it was the one to fail, and else 1. */
  ghost function FailureCode(env: Outside): int
    reads env
    requires env.Valid()
  {
    if env.effects != [] && env.effects[|env.effects| - 1].RunAgent? && env.failed
       && env.answers[|env.answers| - 1].Error? && env.answers[|env.answers| - 1].exit.Some?
    then env.answers[|env.answers| - 1].exit.value
    else 1
  }

  /** Prepares the workspace and lets the coding agent work in it. */
  method LetAgentWork(env: Outside, req: TaskRequest, agentBin: string, model: string)
    returns (output: string, err: Option<RunError>)
    requires env.Valid() && env.effects == []
    modifies env
    ensures env.Valid() && env.callbacks == old(env.callbacks) && env.reports == old(env.reports)
    ensures err.None? ==>
              && env.effects == Preparation(req) + [RunAgent(agentBin, AgentArgs(agentBin, req.prompt, model))]
              && env.answers[|env.answers| - 1] == Ok(output) && !env.failed
    ensures err.Some? ==>
              && env.effects <= Preparation(req) + [RunAgent(agentBin, AgentArgs(agentBin, req.prompt, model))]
              && err.value.exitCode == FailureCode(env)
    ensures err.Some? && EndedByTool(env) ==> HidesToken(err.value, req.gitHubToken)
    ensures err.Some? && err.value.exitCode != 1 ==>
              exists n: nat :: env.replies(n).Error? && env.replies(n).exit == Some(err.value.exitCode)
  {
    var prepared := Prepare(env, req);
    if prepared.Some? {
      return "", prepared;
    }
    if agentBin == "" {
      return "", Some(RunError(1, "AGENT_BIN is not set"));
    }
    var args := AgentArgs(agentBin, req.prompt, model);
    var r := env.Do(RunAgent(agentBin, args));
    if r.Error? {
      var f := Sanitized("agent failed: " + r.message, req.gitHubToken, if r.exit.Some? then r.exit.value else 1);
      return "", Some(f);
    }
    return r.text, None;
  }

  /** Everything up to the report. */
  method Work(env: Outside, req: TaskRequest, agentBin: string, model: string)
    returns (responseStr: string, err: Option<RunError>)
    requires env.Valid() && env.effects == []
    modifies env
    ensures env.Valid() && env.callbacks == old(env.callbacks) && env.reports == old(env.reports)
    ensures err.None? ==> env.effects == Plan(req, agentBin, model) && SaysResult(env, req.taskType, responseStr)
    ensures err.None? ==> !env.failed
    ensures err.Some? ==> env.effects <= Plan(req, agentBin, model)
    ensures err.Some? ==> err.value.exitCode == FailureCode(env)
    ensures err.Some? && EndedByTool(env) ==> HidesToken(err.value, req.gitHubToken)
    ensures err.Some? && err.value.exitCode != 1 ==>
              exists n: nat :: env.replies(n).Error? && env.replies(n).exit == Some(err.value.exitCode)
  {
    var output, failed := LetAgentWork(env, req, agentBin, model);
    if failed.Some? {
      return "", failed;
    }
    responseStr := TrimSpace(output);
    TrimIsExact(output);
    assert ShowsAt(env.effects, env.answers, responseStr, |env.effects| - 1);
    if req.taskType == "pr" {
      var response, published := Publish(env, req);
      if published.Some? {
        return "", published;
      }
      responseStr := response;
    }
    err := None;
  }

  /** The whole run. It returns 0 exactly if one of at most five reports was accepted, and it reports only
      after every step of the plan was taken, in order; before that it stops at a prefix of the plan. Every report
      says what the coding agent said or, for a pull request, which one was created. Its reports, and its exit after
      them, are those of the runner's automaton. `prModel` and `generalModel` are the configured models, "" if none. */
  method Run(env: Outside, req: TaskRequest, agentBin: string, prModel: string, generalModel: string)
    returns (err: Option<RunError>, ghost heard: seq<(bool, bool)>)
    requires env.Valid() && env.effects == [] && env.callbacks == [] && env.reports == []
    modifies env
    ensures env.Valid()
    ensures err.None? <==> true in env.callbacks
    ensures |env.callbacks| <= 5
    ensures env.effects <= Plan(req, agentBin, if req.taskType == "pr" && prModel != "" then prModel else generalModel)
    ensures env.callbacks != [] ==>
              env.effects == Plan(req, agentBin, if req.taskType == "pr" && prModel != "" then prModel else generalModel)
    ensures forall e :: e in env.reports ==>
              && e.Callback? && e.token == req.callbackToken && e.task == req.taskName
              && SaysResult(env, req.taskType, e.response)
    ensures Heard(heard, env.callbacks)
    ensures heard != [] ==> forall pod :: AfterTries(pod, req.callbackToken, heard) == RExited(pod, ProcessExit(err))
    ensures err.Some? ==> err.value.exitCode == FailureCode(env)
    ensures err.Some? && EndedByTool(env) ==> HidesToken(err.value, req.gitHubToken)
    ensures err.Some? && err.value.exitCode != 1 ==>
              exists n: nat :: env.replies(n).Error? && env.replies(n).exit == Some(err.value.exitCode)
  {
    heard := [];
    var model := "";
    if req.taskType == "pr" {
      model := prModel;
    }
    if model == "" {
      model := generalModel;
    }
    var responseStr, failed := Work(env, req, agentBin, model);
    if failed.Some? {
      return failed, heard;
    }
    var ok, outcomes := ReportResult(env, req, responseStr);
    heard := outcomes;
    if !ok {
      return Some(RunError(1, "failed to callback")), heard;
    }
    err := None;
  }

  /** The process exits with 0 exactly if a report was accepted, provided the coding agent's failures carry a
      non-zero exit code, as those of a process do. Either it makes no report and exits with another code, or it
      exits as the runner's automaton does after the reports made. */
  method RunProcess(env: Outside, req: TaskRequest, agentBin: string, prModel: string, generalModel: string)
    returns (code: int, ghost heard: seq<(bool, bool)>)
    requires env.Valid() && env.effects == [] && env.callbacks == [] && env.reports == []
    requires forall n: nat :: env.replies(n).Error? ==> env.replies(n).exit != Some(0)
    modifies env
    ensures code == 0 <==> true in env.callbacks
    ensures |env.callbacks| <= 5
    ensures Heard(heard, env.callbacks)
    ensures heard != [] ==> forall pod :: AfterTries(pod, req.callbackToken, heard) == RExited(pod, code)
  {
    var err, outcomes := Run(env, req, agentBin, prModel, generalModel);
    heard := outcomes;
    code := ProcessExit(err);
  }

  // ----- the plan, spelled out -----

  /** How the two known agents are told the prompt, and any agent its model. */
  lemma AgentArgsAreExact(bin: string, prompt: string, model: string)
    ensures AgentArgs("pi", prompt, "") == ["-p", prompt]
    ensures model != "" ==> AgentArgs("pi", prompt, model) == ["-p", prompt, "--model", model]
    ensures AgentArgs("opencode", prompt, "") == ["run", prompt]
    ensures model != "" ==> AgentArgs("opencode", prompt, model) == ["run", prompt, "--model", model]
    ensures bin != "pi" && bin != "opencode" ==>
              AgentArgs(bin, prompt, model) == if model == "" then [] else ["--model", model]
  {
  }

  /** For an answer nothing happens but the agent's run on a clone. */
  lemma AnswerPlan(req: TaskRequest, bin: string, model: string)
    requires req.taskType != "pr"
    ensures Plan(req, bin, model) == [
              MakeWorkspace(req.repoName), Clone(req.repoOwner, req.repoName, req.gitHubToken),
              RunAgent(bin, AgentArgs(bin, req.prompt, model))]
  {
  }

  /** For a pull request, one branch is made for the task, committed to in the owner's name, pushed, and offered as
      the head of a pull request for the task's issue. */
  lemma PullRequestPlan(req: TaskRequest, bin: string, model: string)
    requires req.taskType == "pr"
    ensures var branch := "attribution-test-" + req.taskName;
            Plan(req, bin, model) == [
              MakeWorkspace(req.repoName), Clone(req.repoOwner, req.repoName, req.gitHubToken),
              Git(["config", "user.name", req.taskOwner]), Git(["config", "user.email", req.taskOwnerEmail]),
              Git(["checkout", "-b", branch]),
              RunAgent(bin, AgentArgs(bin, req.prompt, model)),
              Git(["status", "--porcelain"]), Git(["add", "-A"]),
              Git(["commit", "-m", "cloud-agent: automated commit for task " + req.taskName]),
              Git(["push", "-f", "origin", branch]),
              GetRepository(req.repoOwner, req.repoName), CreatePullRequest(branch, req.issueNumber)]
  {
  }
}
