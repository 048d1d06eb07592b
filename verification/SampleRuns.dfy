/** Concrete runs, used to show that what the theorems speak about does happen. For every valid spec a Pending
    task is started, a claim "c" is created and becomes ready, a token "t" is issued for it, and the goroutine
    is about to submit the task. */
module SampleRuns {
  import opened AgentTasks
  import opened Protocol
  import opened World
  import opened Lifecycle

  lemma Begun(cfg: Config, name: string, meta: Metadata, spec: Spec) returns (w: World)
    ensures w == Init(name, meta, spec, true, map[]) && Reachable(cfg, w)
  {
    w := Init(name, meta, spec, true, map[]);
    assert RunFrom(cfg, w, []) == Some(w);
  }

  function StartedTask(name: string, meta: Metadata, spec: Spec): AgentTask {
    AgentTask(name, 1, meta, spec, Status(Started, 0, "", "", ""))
  }

  lemma Admitted(cfg: Config, name: string, meta: Metadata, spec: Spec) returns (w: World)
    requires ValidSpec(spec)
    ensures Reachable(cfg, w)
    ensures w == Init(name, meta, spec, true, map[]).(obj := Some(StartedTask(name, meta, spec)), changes := 1)
  {
    w := Begun(cfg, name, meta, spec);
    var pending := w.obj.value;
    w := Advance(cfg, w, BeginReconcile(name));
    w := Advance(cfg, w, Loop(GotTask(pending), false));
    w := Advance(cfg, w, Loop(GotTask(StartedTask(name, meta, spec)), true));
  }

  /** The task is Started and its goroutine is at `sub`; nobody else has done anything. */
  function Submitter(name: string, meta: Metadata, spec: Spec, sub: SubPc, claims: set<string>): World {
    Init(name, meta, spec, true, map[]).(
      obj := Some(StartedTask(name, meta, spec)), changes := 1, reg := Some(0), spawned := 1, sub := sub,
      ledger := Ledger(claims, claims, {}, {}, {}, {}, {}))
  }

  lemma Polling(cfg: Config, name: string, meta: Metadata, spec: Spec) returns (w: World)
    requires ValidSpec(spec)
    ensures Reachable(cfg, w) && w == Submitter(name, meta, spec, SPoll(name), {})
  {
    w := Admitted(cfg, name, meta, spec);
    w := Advance(cfg, w, BeginReconcile(name));
    w := Advance(cfg, w, Loop(GotTask(w.obj.value), false));
    w := Advance(cfg, w, Loop(Flag(false), false));
    w := Advance(cfg, w, Loop(Done, false));
    w := Advance(cfg, w, Loop(Done, false));
  }

  lemma Claimed(cfg: Config, name: string, meta: Metadata, spec: Spec) returns (w: World)
    requires ValidSpec(spec)
    ensures Reachable(cfg, w)
    ensures w == Submitter(name, meta, spec, SClaimTick(StartedTask(name, meta, spec), "c"), {"c"})
  {
    var task := StartedTask(name, meta, spec);
    w := Polling(cfg, name, meta, spec);
    w := Advance(cfg, w, Sub(Flag(false), false, ""));
    w := Advance(cfg, w, Sub(GotTask(task), false, ""));
    w := Advance(cfg, w, Sub(Text("c"), false, ""));
    assert w.ledger.live == {"c"} && w.ledger.created == {"c"};
  }

  const HANDLE := Handle("c", "s", "p", "")

  lemma Named(cfg: Config, name: string, meta: Metadata, spec: Spec) returns (w: World)
    requires ValidSpec(spec)
    ensures Reachable(cfg, w)
    ensures w == Submitter(name, meta, spec, SSandboxTick(StartedTask(name, meta, spec), "c", "s"), {"c"})
  {
    w := Claimed(cfg, name, meta, spec);
    w := Advance(cfg, w, Sub(Flag(false), false, ""));
    w := Advance(cfg, w, Sub(Text("s"), false, ""));
  }

  lemma Provisioned(cfg: Config, name: string, meta: Metadata, spec: Spec) returns (w: World)
    requires ValidSpec(spec)
    ensures Reachable(cfg, w)
    ensures w == Submitter(name, meta, spec, STokens(StartedTask(name, meta, spec), HANDLE), {"c"})
  {
    w := Named(cfg, name, meta, spec);
    w := Advance(cfg, w, Sub(Flag(false), false, ""));
    w := Advance(cfg, w, Sub(GotSandbox(SandboxStatus([("Ready", "True")], [], "p")), false, ""));
    w := Advance(cfg, w, Sub(Failure, false, ""));
  }

  // ----- tokens and callbacks, from any reachable world -----

  predicate NamesRepository(task: AgentTask) { task.spec.repoOwner != "" && task.spec.repoName != "" }

  lemma Mints(cfg: Config, w: World, task: AgentTask) returns (v: World)
    requires Reachable(cfg, w) && w.obj == Some(task) && task.name == w.answers.task && NamesRepository(task)
    ensures Reachable(cfg, v) && v == w.(toks := w.toks + [TRandom(task.name, "g")])
  {
    var n := |w.toks|;
    v := Advance(cfg, w, NewTokenRequest(task.name));
    v := Advance(cfg, v, TokenRequest(n, GotTask(task), false));
    v := Advance(cfg, v, TokenRequest(n, Text("g"), false));
    assert v.toks == w.toks + [TRandom(task.name, "g")];
  }

  lemma Draws(cfg: Config, w: World, name: string, token: string) returns (v: World)
    requires Reachable(cfg, w) && token !in w.answers.minted
    requires w.toks != [] && w.toks[|w.toks| - 1] == TRandom(name, "g")
    ensures Reachable(cfg, v)
    ensures v == w.(toks := w.toks[|w.toks| - 1 := TStore(name, Tokens(token, "g"))],
                    answers := w.answers.(minted := w.answers.minted + {token}))
  {
    v := Advance(cfg, w, TokenRequest(|w.toks| - 1, Text(token), false));
  }

  lemma Stores(cfg: Config, w: World, token: string) returns (v: World)
    requires Reachable(cfg, w) && w.toks != []
    requires w.toks[|w.toks| - 1] == TStore(w.answers.task, Tokens(token, "g"))
    ensures Reachable(cfg, v)
    ensures v == w.(toks := w.toks[|w.toks| - 1 := TReplied(200, Tokens(token, "g"))],
                    answers := w.answers.(tokens := w.answers.tokens[w.answers.task := token],
                                          issued := w.answers.issued + [token]))
  {
    v := Advance(cfg, w, TokenRequest(|w.toks| - 1, Done, true));
  }

  lemma Issues(cfg: Config, w: World, task: AgentTask, token: string) returns (v: World)
    requires Reachable(cfg, w) && w.obj == Some(task) && task.name == w.answers.task && NamesRepository(task)
    requires token !in w.answers.minted
    ensures Reachable(cfg, v)
    ensures v == w.(toks := w.toks + [TReplied(200, Tokens(token, "g"))],
                    answers := w.answers.(tokens := w.answers.tokens[task.name := token],
                                          minted := w.answers.minted + {token},
                                          issued := w.answers.issued + [token]))
  {
    v := Mints(cfg, w, task);
    v := Draws(cfg, v, task.name, token);
    v := Stores(cfg, v, token);
    assert v.toks == w.toks + [TReplied(200, Tokens(token, "g"))];
  }

  /** A callback handler that is about to verify its token. */
  lemma Calls(cfg: Config, w: World, req: CallbackRequest, task: AgentTask) returns (v: World)
    requires Reachable(cfg, w) && w.obj == Some(task) && req.token != "" && req.taskName == w.answers.task
    ensures Reachable(cfg, v) && v == w.(cbs := w.cbs + [CVerify(req, task)])
  {
    v := Advance(cfg, w, NewCallback(req));
    v := Advance(cfg, v, Callback(|w.cbs|, GotTask(task), false));
    assert v.cbs == w.cbs + [CVerify(req, task)];
  }

  lemma Verifies(cfg: Config, w: World, i: nat) returns (v: World)
    requires Reachable(cfg, w) && i < |w.cbs| && w.cbs[i].CVerify? && TokenAccepted(w.answers.tokens, CbAct(w.cbs[i]))
    ensures Reachable(cfg, v)
    ensures v == w.(cbs := w.cbs[i := CConsume(w.cbs[i].req, w.cbs[i].task)],
                    answers := w.answers.(verified := w.answers.verified[i := w.cbs[i].req.token],
                                          overlapped := v.answers.overlapped))
  {
    v := Advance(cfg, w, Callback(i, Flag(true), false));
  }

  lemma Consumes(cfg: Config, w: World, i: nat) returns (v: World)
    requires Reachable(cfg, w) && i < |w.cbs| && w.cbs[i].CConsume?
    ensures Reachable(cfg, v)
    ensures v == w.(cbs := w.cbs[i := CPost(w.cbs[i].req, w.cbs[i].task)],
                    answers := w.answers.(tokens := w.answers.tokens - {w.cbs[i].req.taskName},
                                          used := w.answers.used[i := w.cbs[i].req.token]))
  {
    v := Advance(cfg, w, Callback(i, Done, true));
  }
}
