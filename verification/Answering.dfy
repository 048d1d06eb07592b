/** Callback tokens: which handler may post an answer, and how often. */
module Answering {
  import opened AgentTasks
  import opened Protocol
  import opened World
  import opened Addressing

  ghost predicate Distinct(s: seq<string>) {
    forall i, j :: 0 <= i < j < |s| ==> s[i] != s[j]
  }

  /** A token that was stored once and is not stored any more. */
  ghost predicate Spent(A: Answers, token: string) {
    token in A.issued && A.Token() != Some(token)
  }

  // ----- the token store and the token handlers -----

  ghost predicate AwaitsStore(toks: seq<TokPc>, i: int, token: string) {
    0 <= i < |toks| && toks[i].TStore? && toks[i].tokens.callbackToken == token
  }

  ghost predicate StoreOk(A: Answers, toks: seq<TokPc>) {
    && Distinct(A.issued)
    && (forall t :: t in A.issued ==> t in A.minted)
    && (A.Token().Some? ==> |A.issued| > 0 && A.Token().value == A.issued[|A.issued| - 1])
    && (forall i, t :: AwaitsStore(toks, i, t) ==> t in A.minted && t !in A.issued)
    && (forall i, j, t :: AwaitsStore(toks, i, t) && AwaitsStore(toks, j, t) ==> i == j)
  }

  // ----- the callback handlers -----

  /** What each handler has done so far, by its program counter. */
  ghost predicate HandlerOk(A: Answers, i: nat, cb: CbPc) {
    match cb
    case CGet(_) => i !in A.verified && i !in A.used && i !in A.posted
    case CVerify(_, _) => i !in A.verified && i !in A.used && i !in A.posted
    case CConsume(req, _) => i in A.verified && A.verified[i] == req.token && i !in A.used && i !in A.posted
    case CPost(req, _) => i in A.verified && i in A.used && A.verified[i] == A.used[i] == req.token && i !in A.posted
    case CWrite(req, _, _) => i in A.delivered
    case CReplied(code) => code == 200 ==> i in A.delivered
  }

  /** Who used a token had verified it, and no used token is still stored. */
  ghost predicate MapsOk(A: Answers, n: nat) {
    && (forall i :: i in A.verified ==> i < n && A.verified[i] in A.issued)
    && (forall i :: i in A.used ==> i in A.verified && A.used[i] == A.verified[i] && A.Token() != Some(A.used[i]))
    && (forall i :: i in A.posted ==> i in A.used && A.posted[i] == A.used[i])
    && (forall i :: i in A.delivered ==> i in A.posted && A.delivered[i] == A.posted[i])
  }

  ghost predicate HandlersOk(A: Answers, cbs: seq<CbPc>) {
    && (forall i :: 0 <= i < |cbs| ==> HandlerOk(A, i, cbs[i]))
    && MapsOk(A, |cbs|)
  }

  ghost predicate Consumes(cbs: seq<CbPc>, i: int, token: string) {
    0 <= i < |cbs| && cbs[i].CConsume? && cbs[i].req.token == token
  }

  /** For a token that was never verified by one handler between another's verification and deletion. */
  ghost predicate SerialOk(A: Answers, cbs: seq<CbPc>, token: string) {
    && (forall i, j :: Consumes(cbs, i, token) && Consumes(cbs, j, token) ==> i == j)
    && (forall i, j :: Consumes(cbs, i, token) && j in A.used ==> A.used[j] != token)
    && (forall i, j :: i in A.used && j in A.used && A.used[i] == A.used[j] == token ==> i == j)
  }

  ghost predicate AllSerialOk(A: Answers, cbs: seq<CbPc>) {
    forall token :: token !in A.overlapped ==> SerialOk(A, cbs, token)
  }

  ghost predicate AnswersInv(w: World) {
    && StoreOk(w.answers, w.toks)
    && HandlersOk(w.answers, w.cbs)
    && AllSerialOk(w.answers, w.cbs)
  }

  // ----- preservation -----

  /** No two handlers come to wait with the same token. */
  lemma TokenStepKeepsWaiting(A: Answers, toks: seq<TokPc>, i: nat, r: Response)
    requires i < |toks| && StoreOk(A, toks)
    requires toks[i].TRandom? ==> r.Text? && r.text !in A.minted
    ensures var toks' := toks[i := TokNext(toks[i], r)];
            && (forall j, t :: AwaitsStore(toks', j, t) ==>
                  AwaitsStore(toks, j, t) || (j == i && toks[i].TRandom? && t == r.text))
            && (toks[i].TStore? ==> forall t :: !AwaitsStore(toks', i, t))
  {
  }

  lemma StoringKeepsStore(A: Answers, toks: seq<TokPc>, i: nat, r: Response, hit: bool)
    requires i < |toks| && StoreOk(A, toks) && TokNamed(A.task, toks[i]) && toks[i].TStore?
    ensures StoreOk(TokAnswers(A, toks[i], r, hit), toks[i := TokNext(toks[i], r)])
  {
    TokenStepKeepsWaiting(A, toks, i, r);
    assert AwaitsStore(toks, i, toks[i].tokens.callbackToken);
  }

  lemma TokenStepKeepsStore(A: Answers, toks: seq<TokPc>, i: nat, r: Response, hit: bool)
    requires i < |toks| && StoreOk(A, toks) && TokNamed(A.task, toks[i])
    requires toks[i].TRandom? ==> r.Text? && r.text !in A.minted
    ensures StoreOk(TokAnswers(A, toks[i], r, hit), toks[i := TokNext(toks[i], r)])
  {
    if toks[i].TStore? {
      StoringKeepsStore(A, toks, i, r, hit);
    } else {
      TokenStepKeepsWaiting(A, toks, i, r);
    }
  }

  /** Handlers are unaffected when the token store is emptied or given a new token. */
  lemma StoreKeepsHandlers(A: Answers, tok: TokPc, r: Response, hit: bool, cbs: seq<CbPc>)
    requires HandlersOk(A, cbs) && AllSerialOk(A, cbs) && TokNamed(A.task, tok)
    requires tok.TStore? ==> tok.tokens.callbackToken !in A.issued
    ensures var B := TokAnswers(A, tok, r, hit); HandlersOk(B, cbs) && AllSerialOk(B, cbs)
  {
    var B := TokAnswers(A, tok, r, hit);
    forall j | 0 <= j < |cbs| ensures HandlerOk(B, j, cbs[j]) {
      assert HandlerOk(A, j, cbs[j]);
    }
    forall token | token !in B.overlapped ensures SerialOk(B, cbs, token) {
      assert SerialOk(A, cbs, token);
    }
  }

  /** A deletion takes the token of the handler's own task. */
  lemma DeletionTakesOwn(A: Answers, cbs: seq<CbPc>, i: nat, r: Response, hit: bool)
    requires i < |cbs| && cbs[i].CConsume? && CbNamed(A.task, cbs[i])
    ensures var B := CbAnswers(A, cbs, i, r, hit);
            && B == A.(tokens := B.tokens, used := B.used)
            && B.Token() == (if hit then None else A.Token())
  {
  }

  lemma DeletionKeepsMaps(A: Answers, cbs: seq<CbPc>, i: nat, r: Response, hit: bool)
    requires i < |cbs| && HandlerOk(A, i, cbs[i]) && MapsOk(A, |cbs|) && CbNamed(A.task, cbs[i]) && cbs[i].CConsume?
    requires r.Done? ==> hit
    ensures MapsOk(CbAnswers(A, cbs, i, r, hit), |cbs|)
  {
    DeletionTakesOwn(A, cbs, i, r, hit);
  }

  lemma CallbackKeepsMaps(A: Answers, cbs: seq<CbPc>, i: nat, r: Response, hit: bool)
    requires i < |cbs| && HandlerOk(A, i, cbs[i]) && MapsOk(A, |cbs|) && CbNamed(A.task, cbs[i])
    requires cbs[i].CVerify? && r == Flag(true) ==> A.Token() == Some(cbs[i].req.token) && cbs[i].req.token in A.issued
    requires cbs[i].CConsume? && r.Done? ==> hit
    ensures MapsOk(CbAnswers(A, cbs, i, r, hit), |cbs|)
  {
    if cbs[i].CConsume? { DeletionKeepsMaps(A, cbs, i, r, hit); }
  }

  lemma CallbackKeepsOwn(A: Answers, cbs: seq<CbPc>, i: nat, r: Response, hit: bool)
    requires i < |cbs| && HandlerOk(A, i, cbs[i])
    ensures HandlerOk(CbAnswers(A, cbs, i, r, hit), i, CbNext(cbs[i], r))
  {
  }

  lemma CallbackKeepsHandlers(A: Answers, cbs: seq<CbPc>, i: nat, r: Response, hit: bool)
    requires i < |cbs| && HandlersOk(A, cbs) && CbNamed(A.task, cbs[i])
    requires cbs[i].CVerify? && r == Flag(true) ==> A.Token() == Some(cbs[i].req.token) && cbs[i].req.token in A.issued
    requires cbs[i].CConsume? && r.Done? ==> hit
    ensures HandlersOk(CbAnswers(A, cbs, i, r, hit), cbs[i := CbNext(cbs[i], r)])
  {
    assert HandlerOk(A, i, cbs[i]);
    CallbackKeepsMaps(A, cbs, i, r, hit);
    CallbackKeepsOwn(A, cbs, i, r, hit);
    forall j | 0 <= j < |cbs| && j != i ensures HandlerOk(CbAnswers(A, cbs, i, r, hit), j, cbs[j]) {
      assert HandlerOk(A, j, cbs[j]);
    }
  }

  /** A handler comes to consume only by verifying, while no other one is consuming the same token. */
  lemma CallbackKeepsConsuming(A: Answers, cbs: seq<CbPc>, i: nat, r: Response, hit: bool, j: int, token: string)
    requires i < |cbs|
    ensures var cbs' := cbs[i := CbNext(cbs[i], r)];
            && (Consumes(cbs', j, token) && j != i ==> Consumes(cbs, j, token))
            && (Consumes(cbs', i, token) ==>
                  && cbs[i].CVerify? && r == Flag(true) && cbs[i].req.token == token
                  && (token !in CbAnswers(A, cbs, i, r, hit).overlapped ==> !Consumes(cbs, j, token)))
  {
  }

  lemma CallbackKeepsSerial(A: Answers, cbs: seq<CbPc>, i: nat, r: Response, hit: bool, token: string)
    requires i < |cbs| && HandlersOk(A, cbs) && SerialOk(A, cbs, token)
    requires cbs[i].CVerify? && r == Flag(true) ==> A.Token() == Some(cbs[i].req.token)
    requires token !in CbAnswers(A, cbs, i, r, hit).overlapped
    ensures SerialOk(CbAnswers(A, cbs, i, r, hit), cbs[i := CbNext(cbs[i], r)], token)
  {
    assert HandlerOk(A, i, cbs[i]);
    var cbs' := cbs[i := CbNext(cbs[i], r)];
    forall j, k | Consumes(cbs', j, token) && Consumes(cbs', k, token) ensures j == k {
      CallbackKeepsConsuming(A, cbs, i, r, hit, j, token);
      CallbackKeepsConsuming(A, cbs, i, r, hit, k, token);
    }
    var B := CbAnswers(A, cbs, i, r, hit);
    forall j, k | Consumes(cbs', j, token) && k in B.used ensures B.used[k] != token {
      CallbackKeepsConsuming(A, cbs, i, r, hit, j, token);
      if k !in A.used && B.used[k] == token { assert Consumes(cbs, i, token); }
    }
    forall j, k | j in B.used && k in B.used && B.used[j] == B.used[k] == token ensures j == k {
      if j !in A.used || k !in A.used { assert Consumes(cbs, i, token); }
    }
  }

  lemma CallbackTouches(cfg: Config, w: World, i: nat, r: Response, hit: bool)
    requires CbPossible(w, i, r, hit)
    ensures var v := Apply(cfg, w, Callback(i, r, hit));
            && v.answers == CbAnswers(w.answers, w.cbs, i, r, hit)
            && v.cbs == w.cbs[i := CbNext(w.cbs[i], r)]
            && v.toks == w.toks
  {
  }

  lemma CallbackKeepsStore(A: Answers, cbs: seq<CbPc>, toks: seq<TokPc>, i: nat, r: Response, hit: bool)
    requires i < |cbs| && StoreOk(A, toks) && CbNamed(A.task, cbs[i])
    ensures StoreOk(CbAnswers(A, cbs, i, r, hit), toks)
  {
    if cbs[i].CConsume? { DeletionTakesOwn(A, cbs, i, r, hit); }
  }

  /** A token that is accepted is the one stored for this task. */
  lemma AcceptedIsStored(w: World, i: nat, r: Response, hit: bool)
    requires Addressed(w) && CbPossible(w, i, r, hit)
    ensures w.cbs[i].CVerify? && r == Flag(true) ==> w.answers.Token() == Some(w.cbs[i].req.token)
    ensures CbNamed(w.answers.task, w.cbs[i])
  {
    assert CbNamed(w.answers.task, w.cbs[i]);
  }

  lemma CallbackKeepsAnswers(cfg: Config, w: World, i: nat, r: Response, hit: bool)
    requires AnswersInv(w) && Addressed(w) && CbPossible(w, i, r, hit)
    ensures AnswersInv(Apply(cfg, w, Callback(i, r, hit)))
  {
    AcceptedIsStored(w, i, r, hit);
    CallbackTouches(cfg, w, i, r, hit);
    CallbackKeepsStore(w.answers, w.cbs, w.toks, i, r, hit);
    CallbackKeepsHandlers(w.answers, w.cbs, i, r, hit);
    forall token | token !in CbAnswers(w.answers, w.cbs, i, r, hit).overlapped
      ensures SerialOk(CbAnswers(w.answers, w.cbs, i, r, hit), w.cbs[i := CbNext(w.cbs[i], r)], token)
    {
      assert SerialOk(w.answers, w.cbs, token);
      CallbackKeepsSerial(w.answers, w.cbs, i, r, hit, token);
    }
  }

  lemma TokenRequestKeepsAnswers(cfg: Config, w: World, i: nat, r: Response, hit: bool)
    requires AnswersInv(w) && Addressed(w) && TokPossible(w, i, r, hit)
    ensures AnswersInv(Apply(cfg, w, TokenRequest(i, r, hit)))
  {
    assert TokNamed(w.answers.task, w.toks[i]);
    assert w.toks[i].TStore? ==> AwaitsStore(w.toks, i, w.toks[i].tokens.callbackToken);
    TokenStepKeepsStore(w.answers, w.toks, i, r, hit);
    StoreKeepsHandlers(w.answers, w.toks[i], r, hit, w.cbs);
  }

  /** A handler that has just begun has done nothing. */
  lemma BeginningKeepsAnswers(w: World, v: World, req: CallbackRequest)
    requires AnswersInv(w) && v.cbs == w.cbs + [CGet(req)] && (v.answers, v.toks) == (w.answers, w.toks)
    ensures AnswersInv(v)
  {
    forall j | 0 <= j < |v.cbs| ensures HandlerOk(v.answers, j, v.cbs[j]) {
      if j < |w.cbs| { assert HandlerOk(w.answers, j, w.cbs[j]); }
    }
    forall token | token !in v.answers.overlapped ensures SerialOk(v.answers, v.cbs, token) {
      assert SerialOk(w.answers, w.cbs, token);
      assert forall i :: Consumes(v.cbs, i, token) ==> Consumes(w.cbs, i, token);
    }
  }

  lemma RequestKeepsAnswers(w: World, v: World, name: string)
    requires AnswersInv(w) && v.toks == w.toks + [TGet(name)] && (v.answers, v.cbs) == (w.answers, w.cbs)
    ensures AnswersInv(v)
  {
    forall j, t | AwaitsStore(v.toks, j, t) ensures AwaitsStore(w.toks, j, t) {
    }
  }

  /** The loop and the goroutine do not touch tokens and handlers. */
  lemma OrchestratorLeavesAnswers(cfg: Config, w: World, step: Step)
    requires Enabled(cfg, w, step) && (step.BeginReconcile? || step.Loop? || step.Sub?)
    ensures var v := Apply(cfg, w, step); (v.answers, v.toks, v.cbs) == (w.answers, w.toks, w.cbs)
  {
    match step
    case BeginReconcile(_) =>
    case Loop(r, hit) => assert (LoopEffect(w, r, hit).answers, LoopEffect(w, r, hit).cbs) == (w.answers, w.cbs);
    case Sub(r, hit, lost) =>
      assert (SubEffect(w, r, hit, lost).answers, SubEffect(w, r, hit, lost).cbs) == (w.answers, w.cbs);
  }

  /** New handlers and runners begin with a call of their own and leave the others alone. */
  lemma BeginningsLeaveAnswers(cfg: Config, w: World, step: Step)
    requires Enabled(cfg, w, step)
    requires step.NewCallback? || step.NewTokenRequest?
             || step.StartRunner? || step.RunnerStops? || step.RunnerCalls? || step.RunnerHears?
    ensures var v := Apply(cfg, w, step);
            && v.answers == w.answers
            && v.toks == (if step.NewTokenRequest? then w.toks + [TGet(step.name)] else w.toks)
            && v.cbs == (if step.NewCallback? || step.RunnerCalls? then w.cbs + [CGet(step.req)] else w.cbs)
  {
  }

  /** Other tasks' tokens do not matter. */
  lemma OtherTokensKeepAnswers(A: Answers, tokens: map<string, string>, cbs: seq<CbPc>, toks: seq<TokPc>)
    requires StoreOk(A, toks) && HandlersOk(A, cbs) && AllSerialOk(A, cbs)
    requires A.(tokens := tokens).Token() == A.Token()
    ensures var B := A.(tokens := tokens); StoreOk(B, toks) && HandlersOk(B, cbs) && AllSerialOk(B, cbs)
  {
    var B := A.(tokens := tokens);
    forall j | 0 <= j < |cbs| ensures HandlerOk(B, j, cbs[j]) {
      assert HandlerOk(A, j, cbs[j]);
    }
    forall token | token !in B.overlapped ensures SerialOk(B, cbs, token) {
      assert SerialOk(A, cbs, token);
    }
  }

  lemma StepKeepsAnswers(cfg: Config, w: World, step: Step)
    requires AnswersInv(w) && Addressed(w) && Enabled(cfg, w, step)
    ensures AnswersInv(Apply(cfg, w, step))
  {
    if step.Callback? {
      CallbackKeepsAnswers(cfg, w, step.i, step.r, step.hit);
    } else if step.TokenRequest? {
      TokenRequestKeepsAnswers(cfg, w, step.i, step.r, step.hit);
    } else if step.BeginReconcile? || step.Loop? || step.Sub? {
      OrchestratorLeavesAnswers(cfg, w, step);
    } else if step.OtherTokens? {
      OtherTokensKeepAnswers(w.answers, step.tokens, w.cbs, w.toks);
    } else {
      var v := Apply(cfg, w, step);
      BeginningsLeaveAnswers(cfg, w, step);
      if step.NewCallback? || step.RunnerCalls? {
        BeginningKeepsAnswers(w, v, step.req);
      } else if step.NewTokenRequest? {
        RequestKeepsAnswers(w, v, step.name);
      }
    }
  }
}
