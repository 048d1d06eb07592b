/** All the tasks of a namespace at once: one reconcile loop serves them in turn, claim names are unique in the
    cluster, and all callback tokens are in one store. Each task by itself still behaves as in World.dfy. */
module Fleet {
  import opened AgentTasks
  import opened Protocol
  import opened World
  import opened Invariant
  import opened Addressing
  import opened Lifecycle

  /** The tasks by name, and the token store they share. */
  datatype Fleet = Fleet(tasks: map<string, World>, tokens: map<string, string>)

  datatype FleetStep =
    | CreateTask(name: string, meta: Metadata, spec: Spec, initialized: bool)
    | TaskStep(name: string, step: Step)

  ghost predicate FleetEnabled(cfg: Config, f: Fleet, s: FleetStep) {
    match s
    case CreateTask(name, _, _, _) => name !in f.tasks
    case TaskStep(name, step) =>
      && name in f.tasks
      && !step.OtherTokens?
      && Enabled(cfg, f.tasks[name], step)
      && (step.BeginReconcile? ==> forall n :: n in f.tasks ==> f.tasks[n].loop.LIdle?)
      && (forall n :: n in f.tasks && n != name ==>
            NewClaims(f.tasks[name], Apply(cfg, f.tasks[name], step)) !! f.tasks[n].ledger.created)
  }

  ghost function NewClaims(w: World, v: World): set<string> {
    v.ledger.created - w.ledger.created
  }

  /** A world that sees the store as it is now. */
  function WithTokens(w: World, tokens: map<string, string>): World {
    w.(answers := w.answers.(tokens := tokens))
  }

  /** A step of one task changes its world, and the store for all. */
  ghost function FleetApply(cfg: Config, f: Fleet, s: FleetStep): Fleet
    requires FleetEnabled(cfg, f, s)
  {
    match s
    case CreateTask(name, meta, spec, initialized) =>
      f.(tasks := f.tasks[name := Init(name, meta, spec, initialized, f.tokens)])
    case TaskStep(name, step) =>
      var v := Apply(cfg, f.tasks[name], step);
      var tokens := v.answers.tokens;
      Fleet(map n | n in f.tasks :: if n == name then v else WithTokens(f.tasks[n], tokens), tokens)
  }

  ghost function FleetRun(cfg: Config, steps: seq<FleetStep>): Option<Fleet> {
    if steps == [] then Some(Fleet(map[], map[]))
    else
      var before := FleetRun(cfg, steps[..|steps| - 1]);
      var last := steps[|steps| - 1];
      if before.Some? && FleetEnabled(cfg, before.value, last) then Some(FleetApply(cfg, before.value, last)) else None
  }

  ghost predicate ClaimsApart(tasks: map<string, World>) {
    forall m, n :: m in tasks && n in tasks && m != n ==> tasks[m].ledger.created !! tasks[n].ledger.created
  }

  ghost predicate OneAtWork(tasks: map<string, World>) {
    forall m, n :: m in tasks && n in tasks && !tasks[m].loop.LIdle? && !tasks[n].loop.LIdle? ==> m == n
  }

  ghost predicate FleetInv(cfg: Config, f: Fleet) {
    && (forall n :: n in f.tasks ==> Reachable(cfg, f.tasks[n]))
    && (forall n :: n in f.tasks ==> f.tasks[n].answers.task == n && f.tasks[n].answers.tokens == f.tokens)
    && (forall n :: n in f.tokens ==> n in f.tasks)
    && ClaimsApart(f.tasks)
    && OneAtWork(f.tasks)
  }

  lemma InitIsReachable(cfg: Config, name: string, meta: Metadata, spec: Spec, initialized: bool, tokens: map<string, string>)
    requires name !in tokens
    ensures Reachable(cfg, Init(name, meta, spec, initialized, tokens))
  {
    var w := Init(name, meta, spec, initialized, tokens);
    assert RunFrom(cfg, w, []) == Some(w);
  }

  lemma IdleStaysIdle(cfg: Config, w: World, step: Step)
    requires Enabled(cfg, w, step) && w.loop.LIdle? && !step.BeginReconcile?
    ensures Apply(cfg, w, step).loop.LIdle?
  {
  }

  /** What a step of task `name` does to the store is, for any other task, a step of "the others". */
  lemma OtherTaskSees(cfg: Config, w: World, name: string, tokens: map<string, string>)
    requires Reachable(cfg, w) && w.answers.task != name && tokens - {name} == w.answers.tokens - {name}
    ensures Reachable(cfg, WithTokens(w, tokens))
  {
    var task := w.answers.task;
    assert task in tokens <==> task in tokens - {name};
    assert task in w.answers.tokens <==> task in w.answers.tokens - {name};
    assert task in tokens ==> (tokens - {name})[task] == tokens[task];
    ReachableStep(cfg, w, OtherTokens(tokens));
  }

  /** The tokens of all other tasks stay as they are. */
  lemma StepKeepsOthersTokens(cfg: Config, w: World, step: Step)
    requires Reachable(cfg, w) && Enabled(cfg, w, step) && !step.OtherTokens?
    ensures var A := Apply(cfg, w, step).answers;
            A.task == w.answers.task && A.tokens - {A.task} == w.answers.tokens - {A.task}
  {
    ReachableIsGood(cfg, w);
    OthersTokensStay(cfg, w, step);
  }

  lemma NewKeysAreOwn(before: map<string, string>, tokens: map<string, string>, name: string, n: string)
    requires tokens - {name} == before - {name} && n in tokens && n != name
    ensures n in before
  {
    assert n in tokens - {name};
  }

  lemma StoreChangesForOne(cfg: Config, f: Fleet, name: string, step: Step)
    requires FleetInv(cfg, f) && FleetEnabled(cfg, f, TaskStep(name, step))
    ensures var tokens := Apply(cfg, f.tasks[name], step).answers.tokens;
            tokens - {name} == f.tokens - {name} && forall n :: n in tokens ==> n in f.tasks
  {
    StepKeepsOthersTokens(cfg, f.tasks[name], step);
    var tokens := Apply(cfg, f.tasks[name], step).answers.tokens;
    forall n | n in tokens ensures n in f.tasks {
      if n != name { NewKeysAreOwn(f.tokens, tokens, name, n); }
    }
  }

  /** One world is new or has changed, the others only see the store change. */
  ghost predicate Replaces(f: Fleet, g: Fleet, name: string) {
    && g.tasks.Keys == f.tasks.Keys + {name}
    && forall n :: n in f.tasks && n != name ==> g.tasks[n] == WithTokens(f.tasks[n], g.tokens)
  }

  lemma ReplaceKeepsOthers(f: Fleet, g: Fleet, name: string, n: string)
    requires Replaces(f, g, name) && n in g.tasks && n != name
    ensures n in f.tasks && g.tasks[n].loop == f.tasks[n].loop && g.tasks[n].ledger == f.tasks[n].ledger
    ensures g.tasks[n].answers.task == f.tasks[n].answers.task && g.tasks[n].answers.tokens == g.tokens
  {
  }

  lemma ReplaceKeepsApart(f: Fleet, g: Fleet, name: string)
    requires ClaimsApart(f.tasks) && OneAtWork(f.tasks) && Replaces(f, g, name)
    requires forall n :: n in f.tasks && n != name ==> g.tasks[name].ledger.created !! f.tasks[n].ledger.created
    requires g.tasks[name].loop.LIdle? || forall n :: n in f.tasks && n != name ==> f.tasks[n].loop.LIdle?
    ensures ClaimsApart(g.tasks) && OneAtWork(g.tasks)
  {
    forall n | n in g.tasks && n != name
      ensures n in f.tasks && g.tasks[n].loop == f.tasks[n].loop && g.tasks[n].ledger == f.tasks[n].ledger
    {
      ReplaceKeepsOthers(f, g, name, n);
    }
  }

  lemma ReplaceKeepsInv(cfg: Config, f: Fleet, g: Fleet, name: string)
    requires FleetInv(cfg, f) && Replaces(f, g, name)
    requires forall n :: n in g.tasks ==> Reachable(cfg, g.tasks[n])
    requires g.tasks[name].answers.task == name && g.tasks[name].answers.tokens == g.tokens
    requires forall n :: n in g.tokens ==> n in g.tasks
    requires forall n :: n in f.tasks && n != name ==> g.tasks[name].ledger.created !! f.tasks[n].ledger.created
    requires g.tasks[name].loop.LIdle? || forall n :: n in f.tasks && n != name ==> f.tasks[n].loop.LIdle?
    ensures FleetInv(cfg, g)
  {
    ReplaceKeepsApart(f, g, name);
    forall n | n in g.tasks ensures g.tasks[n].answers.task == n && g.tasks[n].answers.tokens == g.tokens {
      if n != name { ReplaceKeepsOthers(f, g, name, n); }
    }
  }

  /** The loop works on no other task meanwhile. */
  lemma OneTaskAtATime(cfg: Config, f: Fleet, name: string, step: Step)
    requires FleetInv(cfg, f) && FleetEnabled(cfg, f, TaskStep(name, step))
    ensures Apply(cfg, f.tasks[name], step).loop.LIdle? || forall n :: n in f.tasks && n != name ==> f.tasks[n].loop.LIdle?
  {
    if f.tasks[name].loop.LIdle? && !step.BeginReconcile? { IdleStaysIdle(cfg, f.tasks[name], step); }
  }

  /** Its claims are its own. */
  lemma ClaimsStayApart(cfg: Config, f: Fleet, name: string, step: Step, n: string)
    requires FleetInv(cfg, f) && FleetEnabled(cfg, f, TaskStep(name, step)) && n in f.tasks && n != name
    ensures Apply(cfg, f.tasks[name], step).ledger.created !! f.tasks[n].ledger.created
  {
    var w, v := f.tasks[name], Apply(cfg, f.tasks[name], step);
    assert v.ledger.created <= w.ledger.created + NewClaims(w, v);
  }

  lemma TaskStepReplaces(cfg: Config, f: Fleet, name: string, step: Step)
    requires FleetInv(cfg, f) && FleetEnabled(cfg, f, TaskStep(name, step))
    ensures var v, g := Apply(cfg, f.tasks[name], step), FleetApply(cfg, f, TaskStep(name, step));
            && Replaces(f, g, name) && g.tasks[name] == v && g.tokens == v.answers.tokens
            && v.answers.task == name && Reachable(cfg, v)
            && forall n :: n in g.tokens ==> n in g.tasks
  {
    StoreChangesForOne(cfg, f, name, step);
    StepKeepsOthersTokens(cfg, f.tasks[name], step);
    ReachableStep(cfg, f.tasks[name], step);
  }

  lemma TaskStepKeepsOther(cfg: Config, f: Fleet, name: string, step: Step, n: string)
    requires FleetInv(cfg, f) && FleetEnabled(cfg, f, TaskStep(name, step)) && n in f.tasks && n != name
    ensures Reachable(cfg, WithTokens(f.tasks[n], Apply(cfg, f.tasks[name], step).answers.tokens))
    ensures Apply(cfg, f.tasks[name], step).ledger.created !! f.tasks[n].ledger.created
  {
    StoreChangesForOne(cfg, f, name, step);
    OtherTaskSees(cfg, f.tasks[n], name, Apply(cfg, f.tasks[name], step).answers.tokens);
    ClaimsStayApart(cfg, f, name, step, n);
  }

  lemma TaskStepKeepsInv(cfg: Config, f: Fleet, name: string, step: Step)
    requires FleetInv(cfg, f) && FleetEnabled(cfg, f, TaskStep(name, step))
    ensures FleetInv(cfg, FleetApply(cfg, f, TaskStep(name, step)))
  {
    var g := FleetApply(cfg, f, TaskStep(name, step));
    TaskStepReplaces(cfg, f, name, step);
    forall n | n in f.tasks && n != name
      ensures Reachable(cfg, g.tasks[n]) && g.tasks[name].ledger.created !! f.tasks[n].ledger.created
    {
      TaskStepKeepsOther(cfg, f, name, step, n);
    }
    OneTaskAtATime(cfg, f, name, step);
    ReplaceKeepsInv(cfg, f, g, name);
  }

  lemma CreationKeepsInv(cfg: Config, f: Fleet, name: string, w: World)
    requires FleetInv(cfg, f) && name !in f.tasks && Reachable(cfg, w)
    requires w.answers.task == name && w.answers.tokens == f.tokens && w.ledger.created == {} && w.loop.LIdle?
    ensures FleetInv(cfg, f.(tasks := f.tasks[name := w]))
  {
    ReplaceKeepsInv(cfg, f, f.(tasks := f.tasks[name := w]), name);
  }

  lemma FleetStepKeepsInv(cfg: Config, f: Fleet, s: FleetStep)
    requires FleetInv(cfg, f) && FleetEnabled(cfg, f, s)
    ensures FleetInv(cfg, FleetApply(cfg, f, s))
  {
    if s.CreateTask? {
      InitIsReachable(cfg, s.name, s.meta, s.spec, s.initialized, f.tokens);
      CreationKeepsInv(cfg, f, s.name, Init(s.name, s.meta, s.spec, s.initialized, f.tokens));
    } else {
      TaskStepKeepsInv(cfg, f, s.name, s.step);
    }
  }

  /** In every run of the whole system each task by itself is a reachable world, all see the same token store, and
      no two share a claim. */
  lemma {:induction false} FleetRunKeepsInv(cfg: Config, steps: seq<FleetStep>)
    requires FleetRun(cfg, steps).Some?
    ensures FleetInv(cfg, FleetRun(cfg, steps).value)
  {
    if steps != [] {
      FleetRunKeepsInv(cfg, steps[..|steps| - 1]);
      FleetStepKeepsInv(cfg, FleetRun(cfg, steps[..|steps| - 1]).value, steps[|steps| - 1]);
    }
  }

  /** In the whole system, a step of one task's agents stores or deletes no token but this task's. */
  lemma TokensBelongToOneTask(cfg: Config, steps: seq<FleetStep>, name: string, step: Step, other: string)
    requires FleetRun(cfg, steps).Some? && FleetEnabled(cfg, FleetRun(cfg, steps).value, TaskStep(name, step))
    requires other != name
    ensures var f := FleetRun(cfg, steps).value;
            var g := FleetApply(cfg, f, TaskStep(name, step));
            && (other in g.tokens <==> other in f.tokens)
            && (other in f.tokens ==> g.tokens[other] == f.tokens[other])
            && (other in f.tasks ==> g.tasks[other].answers.Token() == f.tasks[other].answers.Token())
  {
    FleetRunKeepsInv(cfg, steps);
    var f := FleetRun(cfg, steps).value;
    StoreChangesForOne(cfg, f, name, step);
    var g := FleetApply(cfg, f, TaskStep(name, step));
    assert other in g.tokens <==> other in g.tokens - {name};
    assert other in f.tokens <==> other in f.tokens - {name};
    assert other in f.tokens ==> (f.tokens - {name})[other] == f.tokens[other];
  }

  /** The claims that an agent of this task is about to ask the cluster to delete. */
  ghost function Closing(w: World): set<string> {
    (if w.loop.LClose? then {w.loop.task.status.claimName} else {})
    + (if w.sub.SCleanup? || w.sub.SClose? then {ClaimOf(w.sub)} else {})
  }

  lemma ClosesItsOwn(cfg: Config, w: World)
    requires Reachable(cfg, w)
    ensures Closing(w) <= w.ledger.created && Recorded(w.obj) <= w.ledger.created
  {
    ReachableIsGood(cfg, w);
    if w.loop.LClose? { TeardownSafety(cfg, w); }
  }

  /** In every run of the whole system a claim is named by at most one stored task, the loop works on
      at most one task, and neither the loop nor a goroutine ever closes a claim made for another task
      than its own. */
  lemma ClaimsBelongToOneTask(cfg: Config, steps: seq<FleetStep>, m: string, n: string, c: string)
    requires FleetRun(cfg, steps).Some?
    requires var f := FleetRun(cfg, steps).value.tasks; m in f && n in f
    requires var f := FleetRun(cfg, steps).value.tasks;
             || (c in Recorded(f[m].obj) && c in Recorded(f[n].obj))
             || (!f[m].loop.LIdle? && !f[n].loop.LIdle?)
             || (c in Closing(f[m]) && c in f[n].ledger.created)
    ensures m == n
  {
    FleetRunKeepsInv(cfg, steps);
    var f := FleetRun(cfg, steps).value.tasks;
    ClosesItsOwn(cfg, f[m]);
    ClosesItsOwn(cfg, f[n]);
  }
}
