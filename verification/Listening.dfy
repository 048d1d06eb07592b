/** The webhook listener (pkg/webhook/listener.go): its callback and token handlers, call by call on their
    automata, and the building of a task from a GitHub event. */
module Listening {
  import opened AgentTasks
  import opened Protocol
  import opened Threads
  import opened Histories
  import opened Tracing
  import Sanitizing
  import TaskServer

  // ----- callbacks -----

  const BEARER := "Bearer "

  /** The token a callback presents: the Authorization header, with or without "Bearer ", else the body's field. */
  function PresentedToken(authHeader: string, bodyToken: string): string {
    if BEARER <= authHeader then authHeader[|BEARER|..]
    else if authHeader != "" then authHeader
    else bodyToken
  }

  /** Which token that is, header by header. */
  lemma PresentedTokenIsExact(token: string, authHeader: string, bodyToken: string)
    ensures PresentedToken("Bearer " + token, bodyToken) == token
    ensures authHeader != "" && !("Bearer " <= authHeader) ==> PresentedToken(authHeader, bodyToken) == authHeader
    ensures PresentedToken("", bodyToken) == bodyToken
  {
    assert ("Bearer " + token)[|BEARER|..] == token;
    assert |BEARER| == 7 && BEARER[0] == 'B';
  }

  /** Follows the handler's automaton to its reply. A 200 is the answer exactly to a callback whose task was read,
      whose token was verified and deleted for that task, whose response was posted on that task's issue, and whose
      task was then written as Completed. */
  method HandleCallback(th: Thread, taskName: string, authHeader: string, bodyToken: string, response: string)
    returns (code: int)
    requires th.BeginsAt(OfCb(CGet(CallbackRequest(taskName, PresentedToken(authHeader, bodyToken), response))))
    modifies th
    ensures th.Valid() && th.pc == OfCb(CReplied(code))
    ensures AllCalledFor(th.cfg, th.start, th.log) && forall a :: !Calls(th.cfg, th.start, th.log, a)
    ensures CallbackReplies(CallbackRequest(taskName, PresentedToken(authHeader, bodyToken), response), th.log, code)
    ensures code == 200 ==>
              exists task :: AnswersCallback(th.log, taskName, PresentedToken(authHeader, bodyToken), response, task)
  {
    code := Handle(th, taskName, authHeader, bodyToken, response);
    EndsWhereCalled(th);
  }

  /** The whole history of a callback that was answered with 200. */
  ghost predicate AnswersCallback(log: Log, taskName: string, token: string, response: string, task: AgentTask) {
    var read := Then(Begin, GetTask(taskName), GotTask(task));
    var verified := Then(read, VerifyToken(taskName, token), Flag(true));
    token != "" && Answers(verified, log, CallbackRequest(taskName, token, response), task)
  }

  method Handle(th: Thread, taskName: string, authHeader: string, bodyToken: string, response: string)
    returns (code: int)
    requires th.BeginsAt(OfCb(CGet(CallbackRequest(taskName, PresentedToken(authHeader, bodyToken), response))))
    modifies th
    ensures th.Valid() && th.pc == OfCb(CReplied(code))
    ensures code == 200 ==>
              exists task :: AnswersCallback(th.log, taskName, PresentedToken(authHeader, bodyToken), response, task)
  {
    var r := th.Call(GetTask(taskName));
    if r.Garbled? {
      return 500;
    }
    if !r.GotTask? {
      return 404;
    }
    var task := r.task;

    var callbackToken: string;
    if BEARER <= authHeader {
      callbackToken := authHeader[|BEARER|..];
    } else if authHeader != "" {
      callbackToken := authHeader;
    } else {
      callbackToken := bodyToken;
    }
    if callbackToken == "" {
      return 401;
    }

    r := th.Call(VerifyToken(taskName, callbackToken));
    if !r.Flag? {
      return 500;
    }
    if !r.b {
      return 401;
    }

    code := Answer(th, CallbackRequest(taskName, callbackToken, response), task);
    assert code == 200 ==>
             AnswersCallback(th.log, taskName, PresentedToken(authHeader, bodyToken), response, task);
  }

  /** A verified callback: use up the token, post the answer, complete the task. */
  method Answer(th: Thread, req: CallbackRequest, task: AgentTask) returns (code: int)
    requires th.Valid() && th.pc == OfCb(CConsume(req, task))
    modifies th
    ensures th.Valid() && th.pc == OfCb(CReplied(code))
    ensures code == 200 ==> Answers(old(th.log), th.log, req, task)
  {
    var r := th.Call(ConsumeToken(req.taskName));
    if !r.Done? {
      return 500;
    }
    r := th.Call(PostComment(task.spec.repoOwner, task.spec.repoName, task.spec.issueNumber, req.response));
    if !r.Done? {
      return 500;
    }
    var completed := task.WithState(Completed);
    r := th.Call(WriteStatus(completed));
    if !Wrote(r) {
      r := th.Call(WriteObject(completed));
      if !Wrote(r) {
        return 500;
      }
    }
    code := 200;
  }

  /** A write that the server says it committed; the handler does not look at the object it returns. */
  predicate Wrote(r: Response) { r.GotTask? || r.Garbled? }

  // ----- tokens -----

  method HandleGenerateTokens(th: Thread, taskID: string) returns (code: int, tokens: Tokens)
    requires th.BeginsAt(OfTok(TGet(taskID)))
    modifies th
    ensures th.Valid() && th.pc == OfTok(TReplied(code, tokens))
    ensures AllCalledFor(th.cfg, th.start, th.log) && forall a :: !Calls(th.cfg, th.start, th.log, a)
    ensures TokenReplies(th.log, code, tokens)
    ensures code == 200 ==> exists task :: IssuesTokens(th.log, taskID, task, tokens)
  {
    code, tokens := GenerateFor(th, taskID);
    EndsWhereCalled(th);
  }

  /** The whole history of a request for tokens that was answered with 200: the GitHub token is for the task's own
      repository, and the callback token is new and stored for the task. */
  ghost predicate IssuesTokens(log: Log, taskID: string, task: AgentTask, tokens: Tokens) {
    var read := Then(Begin, GetTask(taskID), GotTask(task));
    var minted := Then(read, MintToken(task.spec.repoOwner, task.spec.repoName), Text(tokens.gitHubToken));
    var drawn := Then(minted, RandomToken, Text(tokens.callbackToken));
    log == Then(drawn, StoreToken(taskID, tokens.callbackToken), Done)
  }

  method GenerateFor(th: Thread, taskID: string) returns (code: int, tokens: Tokens)
    requires th.BeginsAt(OfTok(TGet(taskID)))
    modifies th
    ensures th.Valid() && th.pc == OfTok(TReplied(code, tokens))
    ensures code == 200 ==> exists task :: IssuesTokens(th.log, taskID, task, tokens)
  {
    tokens := NO_TOKENS;
    var r := th.Call(GetTask(taskID));
    if r.Garbled? {
      return 500, tokens;
    }
    if !r.GotTask? {
      return 404, tokens;
    }
    ghost var task := r.task;
    var repoOwner := r.task.spec.repoOwner;
    var repoName := r.task.spec.repoName;
    if repoOwner == "" || repoName == "" {
      return 400, tokens;
    }
    r := th.Call(MintToken(repoOwner, repoName));
    if !r.Text? {
      return 500, tokens;
    }
    var gitHubToken := r.text;
    r := th.Call(RandomToken);
    if !r.Text? {
      return 500, tokens;
    }
    var callbackToken := r.text;
    r := th.Call(StoreToken(taskID, callbackToken));
    if !r.Done? {
      return 500, tokens;
    }
    tokens := Tokens(callbackToken, gitHubToken);
    assert IssuesTokens(th.log, taskID, task, tokens);
    return 200, tokens;
  }

  // ----- tasks from events -----

  datatype User = User(login: string, id: int)

  datatype Comment = Comment(body: string, user: User)

  datatype IssueComment = IssueComment(author: string, body: string)

  datatype GitHubEvent = GitHubEvent(
    action: string,
    issueNumber: int,
    title: string,
    body: string,
    isPullRequest: bool,
    comment: Option<Comment>,
    labelName: Option<string>,
    sender: User,
    repoOwner: string,
    repoName: string)

  const ANSWER_PROMPT := "\n\nPlease **answer** based on the above issue and comments."
  const CHANGE_PROMPT := "\n\nPlease **make changes** on the repository based on the above issue and comments."

  function CommentLines(comments: seq<IssueComment>): string {
    if comments == [] then ""
    else
      var last := comments[|comments| - 1];
      CommentLines(comments[..|comments| - 1]) + "- [" + last.author + "]: " + last.body + "\n"
  }

  function PromptFor(title: string, body: string, comments: seq<IssueComment>): string {
    "Issue Title: " + title + "\n\nIssue Body:\n" + body + "\n\nComments:\n" + CommentLines(comments)
  }

  /** Title and body come first, then the comments, one line each, in their order. */
  lemma PromptGrows(title: string, body: string, comments: seq<IssueComment>, next: IssueComment)
    ensures PromptFor(title, body, []) == "Issue Title: " + title + "\n\nIssue Body:\n" + body + "\n\nComments:\n"
    ensures PromptFor(title, body, comments + [next])
            == PromptFor(title, body, comments) + "- [" + next.author + "]: " + next.body + "\n"
  {
    var more := comments + [next];
    assert more[..|more| - 1] == comments && more[|more| - 1] == next;
    assert CommentLines(more) == CommentLines(comments) + "- [" + next.author + "]: " + next.body + "\n";
  }

  /** The prompt is built up in a string builder. */
  method FormatPrompt(title: string, body: string, comments: seq<IssueComment>) returns (sb: string)
    ensures sb == PromptFor(title, body, comments)
  {
    sb := "Issue Title: ";
    sb := sb + title;
    sb := sb + "\n\nIssue Body:\n";
    sb := sb + body;
    sb := sb + "\n\nComments:\n";
    ghost var head := sb;
    for i := 0 to |comments|
      invariant sb == head + CommentLines(comments[..i])
    {
      assert comments[..i + 1][..i] == comments[..i];
      sb := sb + ("- [" + comments[i].author + "]: " + comments[i].body + "\n");
    }
    assert comments[..|comments|] == comments;
  }

  function Decimal(n: int): string
    decreases if n < 0 then 1 - n else n
  {
    if n < 0 then "-" + Decimal(-n)
    else if n < 10 then ["0123456789"[n]]
    else Decimal(n / 10) + ["0123456789"[n % 10]]
  }

  predicate IsDigit(c: char) { '0' <= c <= '9' }

  /** The number that decimal digits stand for. */
  function Value(digits: string): int {
    if digits == "" then 0
    else 10 * Value(digits[..|digits| - 1]) + (digits[|digits| - 1] as int - '0' as int)
  }

  /** A number is written as its digits, without leading zeros, after a sign if it is negative. */
  lemma {:induction false} DecimalIsExact(n: nat)
    ensures forall i :: 0 <= i < |Decimal(n)| ==> IsDigit(Decimal(n)[i])
    ensures Decimal(n) != "" && Value(Decimal(n)) == n && (Decimal(n)[0] == '0' ==> n == 0)
    ensures n > 0 ==> Decimal(0 - n) == "-" + Decimal(n)
  {
    var digits := "0123456789";
    assert forall d :: 0 <= d < 10 ==> digits[d] == ('0' as int + d) as char;
    if n < 10 {
      assert Decimal(n) == [digits[n]] && Decimal(n)[..0] == "";
    } else {
      DecimalIsExact(n / 10);
      var s := Decimal(n);
      assert s == Decimal(n / 10) + [digits[n % 10]];
      assert s[..|s| - 1] == Decimal(n / 10) && s[|s| - 1] == digits[n % 10];
    }
  }

  function NoReplyAddress(u: User): string {
    Decimal(u.id) + "+" + u.login + "@users.noreply.github.com"
  }

  /** What a task created from an event says. */
  ghost predicate IsTaskFor(event: GitHubEvent, comments: seq<IssueComment>, spec: Spec) {
    && spec.repoOwner == event.repoOwner && spec.repoName == event.repoName && spec.issueNumber == event.issueNumber
    && spec.sandboxTemplate != ""
    && (|| (event.action == "created" && event.comment.Some? && spec.taskType == "comment"
            && spec.taskOwner == event.comment.value.user.login
            && spec.taskOwnerEmail == Decimal(event.comment.value.user.id) + "+" + event.comment.value.user.login
                                      + "@users.noreply.github.com"
            && spec.prompt == PromptFor(event.title, event.body, comments)
                              + "\n\nPlease **answer** based on the above issue and comments.")
        || (event.action == "labeled" && !event.isPullRequest && spec.taskType == "pr"
            && spec.taskOwner == event.sender.login
            && spec.taskOwnerEmail == Decimal(event.sender.id) + "+" + event.sender.login + "@users.noreply.github.com"
            && spec.prompt == PromptFor(event.title, event.body, comments)
                              + "\n\nPlease **make changes** on the repository based on the above issue and comments."))
  }

  /** The agent's name and its label, when the environment does not set them. */
  function OrDefault(configured: string): string {
    if configured == "" then "cloud-agent" else configured
  }

  function Lower(lower: char -> char, text: string): (r: string)
    ensures |r| == |text| && forall i :: 0 <= i < |text| ==> r[i] == lower(text[i])
  {
    seq(|text|, i requires 0 <= i < |text| => lower(text[i]))
  }

  ghost predicate MentionedAt(lower: char -> char, text: string, name: string, i: int) {
    && 0 <= i && i + 1 + |name| <= |text|
    && lower(text[i]) == '@'
    && forall k :: 0 <= k < |name| ==> lower(text[i + 1 + k]) == lower(name[k])
  }

  /** Somewhere in the text stands "@" and the agent's name, in whatever case. */
  ghost predicate Mentions(lower: char -> char, text: string, name: string) {
    exists i :: MentionedAt(lower, text, name, i)
  }

  lemma OccursCharByChar(s: string, t: string, i: int)
    requires 0 <= i && i + |t| <= |s|
    ensures Sanitizing.OccursAt(s, t, i) <==> forall k :: 0 <= k < |t| ==> t[k] == s[i + k]
  {
    var part := s[i..i + |t|];
    assert forall k :: 0 <= k < |t| ==> part[k] == s[i + k];
  }

  lemma MentionAt(lower: char -> char, text: string, name: string, i: int)
    ensures MentionedAt(lower, text, name, i)
            <==> Sanitizing.OccursAt(Lower(lower, text), "@" + Lower(lower, name), i)
  {
    var s, n := Lower(lower, text), Lower(lower, name);
    var t := "@" + n;
    if 0 <= i && i + |t| <= |s| {
      OccursCharByChar(s, t, i);
      if forall k :: 0 <= k < |t| ==> t[k] == s[i + k] {
        assert t[0] == s[i];
        forall k | 0 <= k < |name| ensures lower(text[i + 1 + k]) == lower(name[k]) {
          assert t[k + 1] == n[k] && t[k + 1] == s[i + (k + 1)];
        }
      } else {
        var k :| 0 <= k < |t| && t[k] != s[i + k];
        if k > 0 {
          var m := k - 1;
          assert lower(text[i + 1 + m]) != lower(name[m]);
        }
      }
    }
  }

  /** The test that the listener makes: lower-case both sides, and search. */
  predicate FindsMention(lower: char -> char, text: string, name: string)
    ensures FindsMention(lower, text, name) <==> Mentions(lower, text, name)
  {
    assert Mentions(lower, text, name) <==> Sanitizing.Contains(Lower(lower, text), "@" + Lower(lower, name)) by {
      forall i ensures MentionedAt(lower, text, name, i)
                       <==> Sanitizing.OccursAt(Lower(lower, text), "@" + Lower(lower, name), i) {
        MentionAt(lower, text, name, i);
      }
    }
    Sanitizing.IndexFrom(Lower(lower, text), "@" + Lower(lower, name), 0).Some?
  }

  /** Who asked for the task. */
  function Requester(event: GitHubEvent): User {
    if event.action == "created" && event.comment.Some? then event.comment.value.user else event.sender
  }

  /** Builds the task of an event, or none: for other actions, without a mention or the right label, for a
      label on a pull request, when the comments cannot be fetched or the client says that there are more than
      it returns. `lower` is the lower case of a character, `config` the template the repository asks for, ""
      if none. */
  method BuildTask(event: GitHubEvent, lower: char -> char, agentName: string, agentLabel: string, systemAgent: string,
                   fetched: Option<(seq<IssueComment>, bool)>, config: string) returns (spec: Option<Spec>)
    ensures spec.Some? <==>
              && fetched.Some? && !fetched.value.1
              && (|| (event.action == "created" && event.comment.Some?
                      && Mentions(lower, event.comment.value.body, if agentName == "" then "cloud-agent" else agentName))
                  || (event.action == "labeled" && !event.isPullRequest
                      && event.labelName == Some(if agentLabel == "" then "cloud-agent" else agentLabel)))
    ensures spec.Some? ==> IsTaskFor(event, fetched.value.0, spec.value)
    ensures spec.Some? ==>
              spec.value.sandboxTemplate == (if config != "" then config
                                             else if systemAgent == "opencode" then "opencode-sandbox-template"
                                             else "pi-sandbox-template")
  {
    var taskType: string;
    var prompt: string;
    var owner: User;
    if event.action == "created" {
      if event.comment.None? {
        return None;
      }
      var botName := OrDefault(agentName);
      if !FindsMention(lower, event.comment.value.body, botName) {
        return None;
      }
      taskType := "comment";
      if fetched.None? || fetched.value.1 {
        return None;
      }
      prompt := FormatPrompt(event.title, event.body, fetched.value.0);
      prompt := prompt + ANSWER_PROMPT;
      owner := event.comment.value.user;
    } else if event.action == "labeled" {
      if event.labelName != Some(OrDefault(agentLabel)) {
        return None;
      }
      if event.isPullRequest {
        return None;
      }
      taskType := "pr";
      if fetched.None? || fetched.value.1 {
        return None;
      }
      prompt := FormatPrompt(event.title, event.body, fetched.value.0);
      prompt := prompt + CHANGE_PROMPT;
      owner := event.sender;
    } else {
      return None;
    }
    var sandboxTemplate := if systemAgent == "opencode" then "opencode-sandbox-template" else "pi-sandbox-template";
    if config != "" {
      sandboxTemplate := config;
    }
    spec := Some(Spec(prompt, sandboxTemplate, owner.login, NoReplyAddress(owner), event.repoOwner, event.repoName,
                      event.issueNumber, taskType));
  }

  // ----- the chain of required fields, from the event to the sandbox -----

  /** A task built from an event passes the orchestrator's validation exactly if the event names the
      repository and the issue; its request then passes the sandbox's check too, given a task name,
      tokens and a requester. */
  lemma BuiltTasksPass(event: GitHubEvent, comments: seq<IssueComment>, task: AgentTask, tokens: Tokens)
    requires IsTaskFor(event, comments, task.spec)
    ensures ValidSpec(task.spec) <==> event.repoOwner != "" && event.repoName != "" && event.issueNumber != 0
    ensures ValidSpec(task.spec) && Requester(event).login != ""
            && task.name != "" && tokens.callbackToken != "" && tokens.gitHubToken != ""
            ==> TaskServer.FieldsOk(BuildRequest(task, tokens))
  {
    assert |ANSWER_PROMPT| > 0 && |CHANGE_PROMPT| > 0;
    assert |task.spec.prompt| > 0;
    assert |NoReplyAddress(Requester(event))| > 0;
  }

  /** A validated task with a name and tokens is refused by the sandbox exactly if it is of type `pr` and
      lacks an owner or an email. */
  lemma ValidatedTasksAreRefusedExactly(task: AgentTask, tokens: Tokens)
    requires ValidSpec(task.spec) && task.name != "" && tokens.callbackToken != "" && tokens.gitHubToken != ""
    ensures !TaskServer.FieldsOk(BuildRequest(task, tokens))
            <==> task.spec.taskType == "pr" && (task.spec.taskOwner == "" || task.spec.taskOwnerEmail == "")
  {
  }
}
