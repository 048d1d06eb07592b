/** How often, and with which token, an answer is posted for a task. */
module AnswerOnce {
  import opened AgentTasks
  import opened Protocol
  import opened World
  import opened Addressing
  import opened Answering
  import opened Lifecycle
  import SampleRuns

  ghost function Verifiers(A: Answers, token: string): set<nat> {
    set i | i in A.verified && A.verified[i] == token
  }

  ghost function Posters(A: Answers, token: string): set<nat> {
    set i | i in A.posted && A.posted[i] == token
  }

  /** Only issued tokens are answered, and one that was never verified by one handler between another's
      verification and deletion of it is answered at most once. */
  lemma OneAnswerPerToken(cfg: Config, w: World, token: string)
    requires Reachable(cfg, w)
    ensures Posters(w.answers, token) != {} ==> token in w.answers.issued
    ensures token !in w.answers.overlapped ==>
              forall i, j :: i in Posters(w.answers, token) && j in Posters(w.answers, token) ==> i == j
  {
    ReachableIsGood(cfg, w);
    if token !in w.answers.overlapped { assert SerialOk(w.answers, w.cbs, token); }
  }

  /** Without such overlaps there are at most as many answers as tokens issued. */
  lemma NoMoreAnswersThanTokens(cfg: Config, w: World)
    requires Reachable(cfg, w) && w.answers.overlapped == {}
    ensures |w.answers.posted| <= |w.answers.issued|
  {
    var posted := w.answers.posted;
    forall i | i in posted ensures posted[i] in w.answers.issued {
      OneAnswerPerToken(cfg, w, posted[i]);
      assert i in Posters(w.answers, posted[i]);
    }
    forall i, j | i in posted && j in posted && posted[i] == posted[j] ensures i == j {
      OneAnswerPerToken(cfg, w, posted[i]);
      assert i in Posters(w.answers, posted[i]) && j in Posters(w.answers, posted[i]);
    }
    InjectiveIntoIssued(posted, w.answers.issued);
  }

  /** Without one key. */
  function Without(m: map<nat, string>, i: nat): (r: map<nat, string>)
    requires i in m
    ensures r.Keys == m.Keys - {i} && |r| == |m| - 1
    ensures forall j :: j in r ==> r[j] == m[j]
  {
    var r := m - {i};
    assert r.Keys == m.Keys - {i};
    assert |r| == |r.Keys| && |m| == |m.Keys|;
    r
  }

  lemma {:induction false} InjectiveIntoIssued(m: map<nat, string>, issued: seq<string>)
    requires forall i, j :: i in m && j in m && m[i] == m[j] ==> i == j
    requires forall i :: i in m ==> m[i] in issued
    ensures |m| <= |issued|
    decreases |issued|
  {
    if issued != [] {
      var last, rest := issued[|issued| - 1], issued[..|issued| - 1];
      if i :| i in m && m[i] == last {
        InjectiveIntoIssued(Without(m, i), rest);
      } else {
        InjectiveIntoIssued(m, rest);
      }
    } else {
      assert m.Keys == {};
    }
  }

  /** Only the newest token ever issued can be accepted, and only until it is deleted. */
  lemma OnlyNewestIsAccepted(cfg: Config, w: World, i: nat)
    requires Reachable(cfg, w) && i < |w.cbs| && w.cbs[i].CVerify?
    requires Enabled(cfg, w, Callback(i, Flag(true), false))
    ensures var t := w.cbs[i].req.token;
            && |w.answers.issued| > 0
            && t == w.answers.issued[|w.answers.issued| - 1]
            && !Spent(w.answers, t)
            && (forall j :: j in w.answers.used ==> w.answers.used[j] != t)
  {
    ReachableIsGood(cfg, w);
    AcceptedIsStored(w, i, Flag(true), false);
  }

  lemma SpentCallback(A: Answers, cbs: seq<CbPc>, i: nat, r: Response, hit: bool, token: string)
    requires i < |cbs| && HandlerOk(A, i, cbs[i]) && Spent(A, token) && CbNamed(A.task, cbs[i])
    requires cbs[i].CVerify? && r == Flag(true) ==> A.Token() == Some(cbs[i].req.token)
    ensures var B := CbAnswers(A, cbs, i, r, hit);
            Spent(B, token) && Verifiers(B, token) == Verifiers(A, token)
  {
  }

  lemma SpentTokenRequest(A: Answers, toks: seq<TokPc>, i: nat, r: Response, hit: bool, token: string)
    requires i < |toks| && StoreOk(A, toks) && Spent(A, token) && TokNamed(A.task, toks[i])
    ensures var B := TokAnswers(A, toks[i], r, hit);
            Spent(B, token) && Verifiers(B, token) == Verifiers(A, token)
  {
    assert toks[i].TStore? ==> AwaitsStore(toks, i, toks[i].tokens.callbackToken);
  }

  lemma OthersLeaveTokens(cfg: Config, w: World, step: Step)
    requires Enabled(cfg, w, step) && !step.Callback? && !step.TokenRequest?
    ensures var A := Apply(cfg, w, step).answers; A == w.answers.(tokens := A.tokens) && A.Token() == w.answers.Token()
  {
    if step.BeginReconcile? || step.Loop? || step.Sub? {
      OrchestratorLeavesAnswers(cfg, w, step);
    } else if !step.OtherTokens? {
      BeginningsLeaveAnswers(cfg, w, step);
    }
  }

  lemma SpentCallbackStep(cfg: Config, w: World, i: nat, r: Response, hit: bool, token: string)
    requires AnswersInv(w) && Addressed(w) && Enabled(cfg, w, Callback(i, r, hit)) && Spent(w.answers, token)
    ensures var v := Apply(cfg, w, Callback(i, r, hit));
            Spent(v.answers, token) && Verifiers(v.answers, token) == Verifiers(w.answers, token)
  {
    AcceptedIsStored(w, i, r, hit);
    CallbackTouches(cfg, w, i, r, hit);
    SpentCallback(w.answers, w.cbs, i, r, hit, token);
  }

  lemma SpentRequestStep(cfg: Config, w: World, i: nat, r: Response, hit: bool, token: string)
    requires AnswersInv(w) && Addressed(w) && Enabled(cfg, w, TokenRequest(i, r, hit)) && Spent(w.answers, token)
    ensures var v := Apply(cfg, w, TokenRequest(i, r, hit));
            Spent(v.answers, token) && Verifiers(v.answers, token) == Verifiers(w.answers, token)
  {
    assert TokNamed(w.answers.task, w.toks[i]);
    SpentTokenRequest(w.answers, w.toks, i, r, hit, token);
  }

  lemma SpentStep(cfg: Config, w: World, step: Step, token: string)
    requires Reachable(cfg, w) && Enabled(cfg, w, step) && Spent(w.answers, token)
    ensures var v := Apply(cfg, w, step);
            Spent(v.answers, token) && Verifiers(v.answers, token) == Verifiers(w.answers, token)
  {
    ReachableIsGood(cfg, w);
    if step.Callback? {
      SpentCallbackStep(cfg, w, step.i, step.r, step.hit, token);
    } else if step.TokenRequest? {
      SpentRequestStep(cfg, w, step.i, step.r, step.hit, token);
    } else {
      OthersLeaveTokens(cfg, w, step);
    }
  }

  /** Once a token is deleted or replaced it is never accepted again: whatever runs afterwards, the
      handlers that ever post with it are among those that had verified it by then. */
  lemma {:induction false} SpentForever(cfg: Config, w: World, more: seq<Step>, token: string)
    requires Reachable(cfg, w) && Spent(w.answers, token) && RunFrom(cfg, w, more).Some?
    ensures var v := RunFrom(cfg, w, more).value;
            && Reachable(cfg, v)
            && Spent(v.answers, token)
            && Verifiers(v.answers, token) == Verifiers(w.answers, token)
            && Posters(v.answers, token) <= Verifiers(w.answers, token)
  {
    if more == [] {
      ReachableIsGood(cfg, w);
    } else {
      var before := more[..|more| - 1];
      SpentForever(cfg, w, before, token);
      var u := RunFrom(cfg, w, before).value;
      SpentStep(cfg, u, more[|more| - 1], token);
      ReachableStep(cfg, u, more[|more| - 1]);
      ReachableIsGood(cfg, RunFrom(cfg, w, more).value);
    }
  }

  /** A verification ends in a post only through a deletion, which spends the token. */
  lemma PostedIsSpent(cfg: Config, w: World, i: nat)
    requires Reachable(cfg, w) && i in w.answers.posted
    ensures Spent(w.answers, w.answers.posted[i])
    ensures i in Verifiers(w.answers, w.answers.posted[i])
  {
    ReachableIsGood(cfg, w);
  }

  lemma OthersLeaveReplies(cfg: Config, w: World, step: Step, i: nat)
    requires Enabled(cfg, w, step) && !step.Callback? && i < |w.cbs|
    ensures var v := Apply(cfg, w, step); i < |v.cbs| && v.cbs[i] == w.cbs[i]
  {
    if step.BeginReconcile? || step.Loop? || step.Sub? {
      OrchestratorLeavesAnswers(cfg, w, step);
    } else if !step.TokenRequest? && !step.OtherTokens? {
      BeginningsLeaveAnswers(cfg, w, step);
    }
  }

  lemma RepliedStep(cfg: Config, w: World, step: Step, i: nat)
    requires Enabled(cfg, w, step) && i < |w.cbs| && w.cbs[i].CReplied?
    ensures var v := Apply(cfg, w, step);
            i < |v.cbs| && v.cbs[i] == w.cbs[i] && (i in v.answers.posted <==> i in w.answers.posted)
  {
    if step.Callback? {
      CallbackTouches(cfg, w, step.i, step.r, step.hit);
    } else {
      OthersLeaveReplies(cfg, w, step, i);
      if !step.TokenRequest? { OthersLeaveTokens(cfg, w, step); }
    }
  }

  /** A handler that has replied does nothing more. */
  lemma {:induction false} RepliesAreFinal(cfg: Config, w: World, more: seq<Step>, i: nat)
    requires i < |w.cbs| && w.cbs[i].CReplied? && RunFrom(cfg, w, more).Some?
    ensures var v := RunFrom(cfg, w, more).value;
            i < |v.cbs| && v.cbs[i] == w.cbs[i] && (i in v.answers.posted <==> i in w.answers.posted)
  {
    if more != [] {
      RepliesAreFinal(cfg, w, more[..|more| - 1], i);
      RepliedStep(cfg, RunFrom(cfg, w, more[..|more| - 1]).value, more[|more| - 1], i);
    }
  }

  /** Once every handler that verified a spent token has answered with an error, no later attempt with that
      token can ever succeed: a sandbox's remaining callback tries are in vain. */
  lemma FailedAnswerIsFinal(cfg: Config, w: World, more: seq<Step>, token: string, j: nat)
    requires Reachable(cfg, w) && Spent(w.answers, token) && RunFrom(cfg, w, more).Some?
    requires forall i :: i in Verifiers(w.answers, token) ==> i < |w.cbs| && w.cbs[i].CReplied? && w.cbs[i].code != 200
    requires var v := RunFrom(cfg, w, more).value; j < |v.cbs| && v.cbs[j] == CReplied(200)
    ensures var v := RunFrom(cfg, w, more).value; j in v.answers.posted && v.answers.posted[j] != token
  {
    SpentForever(cfg, w, more, token);
    var v := RunFrom(cfg, w, more).value;
    ReachableIsGood(cfg, v);
    assert HandlerOk(v.answers, j, v.cbs[j]);
    if v.answers.posted[j] == token {
      assert j in Posters(v.answers, token);
      RepliesAreFinal(cfg, w, more, j);
    }
  }

  /** It happens: the comment cannot be posted, after the token was used up. */
  lemma FailedAnswerIsReachable(cfg: Config, name: string, meta: Metadata, spec: Spec) returns (w: World)
    requires spec.repoOwner != "" && spec.repoName != ""
    ensures Reachable(cfg, w) && Spent(w.answers, "t") && w.obj == Init(name, meta, spec, true, map[]).obj
    ensures Verifiers(w.answers, "t") == {0} && w.cbs == [CReplied(500)]
  {
    w := Verified(cfg, name, meta, spec);
    w := SampleRuns.Consumes(cfg, w, 0);
    w := Advance(cfg, w, Callback(0, Failure, false));
    assert w.cbs == [CReplied(500)];
  }

  // ----- how often a token can be answered -----

  /** Handlers that have verified the token and will post with it unless a call of theirs fails. */
  ghost function Carriers(cbs: seq<CbPc>, token: string): set<nat> {
    set i: nat | i < |cbs| && (cbs[i].CConsume? || cbs[i].CPost?) && cbs[i].req.token == token
  }

  ghost predicate AnsweredTwice(A: Answers, token: string) {
    exists i, j :: i != j && i in Posters(A, token) && j in Posters(A, token)
  }

  ghost function CanPost(w: World, token: string): set<nat> {
    Posters(w.answers, token) + Carriers(w.cbs, token)
  }

  lemma PostersCouldPost(cfg: Config, w: World, more: seq<Step>, token: string, i: nat)
    requires Reachable(cfg, w) && Spent(w.answers, token) && RunFrom(cfg, w, more).Some?
    requires i in Posters(RunFrom(cfg, w, more).value.answers, token)
    ensures i in CanPost(w, token)
  {
    SpentForever(cfg, w, more, token);
    ReachableIsGood(cfg, w);
    assert HandlerOk(w.answers, i, w.cbs[i]);
    if w.cbs[i].CReplied? {
      RepliesAreFinal(cfg, w, more, i);
    }
  }

  lemma Consume(cfg: Config, u: World, w: World, i: nat) returns (v: World)
    requires Leads(cfg, u, w) && i < |w.cbs| && w.cbs[i].CConsume?
    ensures Leads(cfg, u, v) && v.answers.posted == w.answers.posted
    ensures v.cbs == w.cbs[i := CPost(w.cbs[i].req, w.cbs[i].task)]
  {
    v := Proceed(cfg, u, w, Callback(i, Done, true));
  }

  lemma Post(cfg: Config, u: World, w: World, i: nat) returns (v: World)
    requires Leads(cfg, u, w) && i < |w.cbs| && w.cbs[i].CPost?
    ensures Leads(cfg, u, v) && v.answers.posted == w.answers.posted[i := w.cbs[i].req.token]
    ensures v.cbs == w.cbs[i := CbNext(w.cbs[i], Done)]
  {
    v := Proceed(cfg, u, w, Callback(i, Done, false));
  }

  /** One of those handlers goes on to post. */
  lemma LetPost(cfg: Config, u: World, w: World, i: nat, j: nat, token: string) returns (v: World)
    requires Leads(cfg, u, w) && i != j && i in CanPost(w, token) && j in CanPost(w, token)
    ensures Leads(cfg, u, v) && i in Posters(v.answers, token) && j in CanPost(v, token)
    ensures j in Posters(w.answers, token) ==> j in Posters(v.answers, token)
  {
    v := w;
    if i !in Posters(w.answers, token) {
      if v.cbs[i].CConsume? {
        v := Consume(cfg, u, v, i);
      }
      v := Post(cfg, u, v, i);
    }
  }

  lemma TwoCanPost(cfg: Config, w: World, i: nat, j: nat, token: string) returns (v: World)
    requires i != j && i in CanPost(w, token) && j in CanPost(w, token)
    ensures Leads(cfg, w, v) && AnsweredTwice(v.answers, token)
  {
    Stay(cfg, w);
    v := LetPost(cfg, w, w, i, j, token);
    v := LetPost(cfg, w, v, j, i, token);
  }

  /** Exactly when a token that is deleted or replaced is ever answered twice: if two handlers have posted with
      it, or stand between its verification and their post. */
  lemma AnsweredTwiceExactly(cfg: Config, w: World, token: string)
    requires Reachable(cfg, w) && Spent(w.answers, token)
    ensures (exists v :: Leads(cfg, w, v) && AnsweredTwice(v.answers, token))
            <==> exists i, j :: i != j && i in CanPost(w, token) && j in CanPost(w, token)
  {
    forall v | Leads(cfg, w, v) && AnsweredTwice(v.answers, token)
      ensures exists i, j :: i != j && i in CanPost(w, token) && j in CanPost(w, token)
    {
      var more :| RunFrom(cfg, w, more) == Some(v);
      var i, j :| i != j && i in Posters(v.answers, token) && j in Posters(v.answers, token);
      PostersCouldPost(cfg, w, more, token, i);
      PostersCouldPost(cfg, w, more, token, j);
    }
    if i, j :| i != j && i in CanPost(w, token) && j in CanPost(w, token) {
      var v := TwoCanPost(cfg, w, i, j, token);
    }
  }

  /** n handlers that are all about to verify the token "t", the only one issued. */
  lemma {:induction false} Called(cfg: Config, name: string, meta: Metadata, spec: Spec, n: nat) returns (w: World)
    requires spec.repoOwner != "" && spec.repoName != ""
    ensures Reachable(cfg, w) && w.obj == Init(name, meta, spec, true, map[]).obj
    ensures w.answers == Answers(name, map[name := "t"], {"t"}, ["t"], map[], map[], map[], map[], {})
    ensures w.cbs == seq(n, _ => CVerify(CallbackRequest(name, "t", "answer"), w.obj.value))
  {
    if n == 0 {
      w := SampleRuns.Begun(cfg, name, meta, spec);
      w := SampleRuns.Issues(cfg, w, w.obj.value, "t");
    } else {
      w := Called(cfg, name, meta, spec, n - 1);
      w := SampleRuns.Calls(cfg, w, CallbackRequest(name, "t", "answer"), w.obj.value);
    }
  }

  lemma Verified(cfg: Config, name: string, meta: Metadata, spec: Spec) returns (w: World)
    requires spec.repoOwner != "" && spec.repoName != ""
    ensures Reachable(cfg, w) && w.obj == Init(name, meta, spec, true, map[]).obj
    ensures w.cbs == [CConsume(CallbackRequest(name, "t", "answer"), w.obj.value)]
    ensures w.answers == Answers(name, map[name := "t"], {"t"}, ["t"], map[0 := "t"], map[], map[], map[], w.answers.overlapped)
  {
    w := Called(cfg, name, meta, spec, 1);
    w := SampleRuns.Verifies(cfg, w, 0);
  }

  lemma FirstVerified(cfg: Config, name: string, meta: Metadata, spec: Spec) returns (w: World)
    requires spec.repoOwner != "" && spec.repoName != ""
    ensures Reachable(cfg, w) && w.obj == Init(name, meta, spec, true, map[]).obj
    ensures var req := CallbackRequest(name, "t", "answer");
            w.cbs == [CConsume(req, w.obj.value), CVerify(req, w.obj.value)]
    ensures w.answers == Answers(name, map[name := "t"], {"t"}, ["t"], map[0 := "t"], map[], map[], map[], {})
  {
    w := Called(cfg, name, meta, spec, 2);
    w := Advance(cfg, w, Callback(0, Flag(true), false));
  }

  lemma BothVerified(cfg: Config, name: string, meta: Metadata, spec: Spec) returns (w: World)
    requires spec.repoOwner != "" && spec.repoName != ""
    ensures Reachable(cfg, w) && w.answers.issued == ["t"] && w.answers.overlapped == {"t"}
    ensures 0 in Carriers(w.cbs, "t") && 1 in Carriers(w.cbs, "t")
  {
    w := FirstVerified(cfg, name, meta, spec);
    assert w.cbs[0].CConsume? && w.cbs[0].req.token == "t";
    w := Advance(cfg, w, Callback(1, Flag(true), false));
  }

  /** Two handlers that verify before either deletes may both post with the one token that was issued. */
  lemma OverlapAnswersTwice(cfg: Config, name: string, meta: Metadata, spec: Spec) returns (w: World, v: World)
    requires spec.repoOwner != "" && spec.repoName != ""
    ensures Reachable(cfg, w) && w.answers.issued == ["t"] && w.answers.overlapped == {"t"}
    ensures Leads(cfg, w, v) && AnsweredTwice(v.answers, "t")
  {
    w := BothVerified(cfg, name, meta, spec);
    v := TwoCanPost(cfg, w, 0, 1, "t");
  }

  // ----- the deletion goes by task, not by token -----

  lemma Deletes(cfg: Config, w: World, i: nat, r: Response, hit: bool)
    requires Addressed(w) && i < |w.cbs| && w.cbs[i].CConsume? && Enabled(cfg, w, Callback(i, r, hit))
    ensures var A := Apply(cfg, w, Callback(i, r, hit)).answers;
            && A.tokens == (if hit then w.answers.tokens - {w.answers.task} else w.answers.tokens)
            && A.task == w.answers.task && A.issued == w.answers.issued && A.verified == w.answers.verified
  {
    AcceptedIsStored(w, i, r, hit);
  }

  /** Whatever token the handler had verified, its deletion spends exactly the token stored for its task at that
      moment, and leaves those of other tasks. A newer token that nobody had verified is then never answered by
      anyone. */
  lemma DeletionSpendsTheStored(cfg: Config, w: World, i: nat, r: Response, hit: bool, stored: string, more: seq<Step>)
    requires Reachable(cfg, w) && i < |w.cbs| && w.cbs[i].CConsume? && w.answers.Token() == Some(stored)
    requires Enabled(cfg, w, Callback(i, r, hit))
    requires RunFrom(cfg, Apply(cfg, w, Callback(i, r, hit)), more).Some?
    ensures var A := Apply(cfg, w, Callback(i, r, hit)).answers;
            && (Spent(A, stored) <==> hit)
            && A.tokens == if hit then w.answers.tokens - {w.answers.task} else w.answers.tokens
    ensures hit && Verifiers(w.answers, stored) == {} ==>
              Posters(RunFrom(cfg, Apply(cfg, w, Callback(i, r, hit)), more).value.answers, stored) == {}
  {
    ReachableIsGood(cfg, w);
    Deletes(cfg, w, i, r, hit);
    if hit {
      ReachableStep(cfg, w, Callback(i, r, hit));
      SpentForever(cfg, Apply(cfg, w, Callback(i, r, hit)), more, stored);
    }
  }

  lemma Replaced(cfg: Config, name: string, meta: Metadata, spec: Spec) returns (w: World)
    requires spec.repoOwner != "" && spec.repoName != ""
    ensures Reachable(cfg, w) && w.answers.task == name
    ensures w.answers.issued == ["t", "u"] && w.answers.tokens == map[name := "u"] && w.answers.verified == map[0 := "t"]
    ensures |w.cbs| == 1 && w.cbs[0].CConsume? && w.cbs[0].req.token == "t" && w.cbs[0].req.taskName == name
  {
    w := Verified(cfg, name, meta, spec);
    w := SampleRuns.Issues(cfg, w, w.obj.value, "u");
  }

  /** It happens: "t" is verified, "u" replaces it, and the handler of "t" deletes "u". */
  lemma NewerTokenIsDeleted(cfg: Config, name: string, meta: Metadata, spec: Spec) returns (w: World, v: World)
    requires spec.repoOwner != "" && spec.repoName != ""
    ensures Reachable(cfg, w) && w.answers.issued == ["t", "u"] && w.answers.Token() == Some("u")
    ensures Verifiers(w.answers, "u") == {}
    ensures |w.cbs| == 1 && w.cbs[0].CConsume? && w.cbs[0].req.token == "t"
    ensures v == Apply(cfg, w, Callback(0, Done, true)) && Spent(v.answers, "u")
  {
    w := Replaced(cfg, name, meta, spec);
    v := SampleRuns.Consumes(cfg, w, 0);
  }
}
