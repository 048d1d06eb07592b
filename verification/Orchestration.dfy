/** The orchestrator's own code (pkg/orchestrator/controller.go), call by call. Each method is shown to
    follow its automaton, so that what is proved of all interleavings applies to it. */
module Orchestration {
  import opened AgentTasks
  import opened Protocol
  import opened Threads
  import opened Histories
  import opened Tracing
  import opened Backoff
  import Sandboxes

  /** The task variable that the code edits in place and overwrites with the server's answer. */
  class TaskRef {
    var task: AgentTask

    constructor (task: AgentTask)
      ensures this.task == task
    {
      this.task := task;
    }
  }

  class Random {
    const draws: nat -> nat
    var at: nat

    constructor (draws: nat -> nat) {
      this.draws := draws;
      at := 0;
    }

    method Int63n(n: int) returns (k: int)
      requires n > 0
      modifies this
      ensures 0 <= k < n
    {
      k := draws(at) % n;
      at := at + 1;
    }
  }

  /** Lists the required fields that are empty. */
  method ValidateTask(spec: Spec) returns (missing: seq<string>)
    ensures missing == [] <==> ValidSpec(spec)
    ensures "prompt" in missing <==> spec.prompt == ""
    ensures "repoOwner" in missing <==> spec.repoOwner == ""
    ensures "repoName" in missing <==> spec.repoName == ""
    ensures "sandboxTemplate" in missing <==> spec.sandboxTemplate == ""
    ensures "issueNumber" in missing <==> spec.issueNumber == 0
    ensures "taskType" in missing <==> spec.taskType == ""
  {
    missing := [];
    if spec.prompt == "" { missing := missing + ["prompt"]; }
    if spec.repoOwner == "" { missing := missing + ["repoOwner"]; }
    if spec.repoName == "" { missing := missing + ["repoName"]; }
    if spec.sandboxTemplate == "" { missing := missing + ["sandboxTemplate"]; }
    if spec.issueNumber == 0 { missing := missing + ["issueNumber"]; }
    if spec.taskType == "" { missing := missing + ["taskType"]; }
  }

  /** The exit code of the first container that has terminated. */
  method FindTerminated(containers: seq<Option<int>>) returns (code: Option<int>)
    ensures code == FirstTerminated(containers)
  {
    code := None;
    for i := 0 to |containers|
      invariant code.None? && FirstTerminated(containers) == FirstTerminated(containers[i..])
    {
      if containers[i].Some? {
        return containers[i];
      }
    }
  }

  /** Writes the task through the status endpoint and, if that reports an error, as a whole object. On success the
      variable holds the server's answer. A first write that succeeds with an answer that cannot be parsed is an
      error, and is not repeated. */
  method UpdateTaskStatus(th: Thread, ref: TaskRef) returns (ok: bool, ghost first: Response, ghost second: Response)
    requires th.Valid() && Act(th.pc) == WriteStatus(ref.task)
    requires forall r: Response :: !r.GotTask? && !r.Garbled? ==> Act(Next(th.cfg, th.pc, r)) == WriteObject(ref.task)
    modifies th, ref
    ensures th.Valid() && th.trace == old(th.trace)
    ensures Updates(old(th.log), th.log, old(ref.task))
    ensures ok <==> th.log.response.GotTask?
    ensures first.GotTask? || first.Garbled? ==> th.pc == Next(th.cfg, old(th.pc), first) && th.log.response == first
    ensures !first.GotTask? && !first.Garbled? ==>
              th.pc == Next(th.cfg, Next(th.cfg, old(th.pc), first), second) && th.log.response == second
    ensures ok ==> ref.task == th.log.response.task && ref.task.name == old(ref.task.name)
    ensures !ok ==> ref.task == old(ref.task)
    ensures ok <==> !LastCallFailed(th.log)
  {
    second := Failure;
    var r := th.Call(WriteStatus(ref.task));
    first := r;
    if !r.GotTask? && !r.Garbled? {
      r := th.Call(WriteObject(ref.task));
      second := r;
    }
    if !r.GotTask? {
      return false, first, second;
    }
    ref.task := r.task;
    ok := true;
  }

  class Orchestrator {
    const maxRetries: nat
    var activeTasks: map<string, Context>

    constructor (maxRetries: nat)
      ensures this.maxRetries == maxRetries && activeTasks == map[]
    {
      this.maxRetries := maxRetries;
      activeTasks := map[];
    }

    /** Other goroutines may end between two critical sections. */
    method GoroutinesExit(gone: set<string>)
      modifies this
      ensures activeTasks == old(activeTasks) - gone
    {
      activeTasks := activeTasks - gone;
    }

    /** One synchronization step. `gone` are the goroutines that end between the lookup and the insertion,
        `polls` bounds the life of a context that is created. */
    method Reconcile(th: Thread, taskName: string, gone: set<string>, polls: nat) returns (ok: bool, spawned: Option<string>)
      requires th.BeginsAt(OfLoop(LGet(taskName))) && th.cfg.maxRetries == maxRetries
      modifies this, th
      ensures th.Valid() && th.pc == OfLoop(LIdle) && th.trace.created == old(th.trace.created)
      ensures AllCalledFor(th.cfg, th.start, th.log) && forall a :: !Calls(th.cfg, th.start, th.log, a)
      ensures ok <==> !LastCallFailed(th.log)
      ensures spawned.None? ==> activeTasks == old(activeTasks)
      ensures spawned.Some? ==>
                && spawned.value == taskName && taskName !in old(activeTasks)
                && taskName in activeTasks && fresh(activeTasks[taskName])
                && activeTasks == (old(activeTasks) - gone)[taskName := activeTasks[taskName]]
    {
      ok, spawned := Synchronize(th, taskName, gone, polls);
      EndsWhereCalled(th);
    }

    method Synchronize(th: Thread, taskName: string, gone: set<string>, polls: nat) returns (ok: bool, spawned: Option<string>)
      requires th.Valid() && th.pc == OfLoop(LGet(taskName)) && th.cfg.maxRetries == maxRetries
      modifies this, th
      ensures th.Valid() && th.pc == OfLoop(LIdle) && th.trace.created == old(th.trace.created)
      ensures ok <==> !LastCallFailed(th.log)
      ensures spawned.None? ==> activeTasks == old(activeTasks)
      ensures spawned.Some? ==>
                && spawned.value == taskName && taskName !in old(activeTasks)
                && taskName in activeTasks && fresh(activeTasks[taskName])
                && activeTasks == (old(activeTasks) - gone)[taskName := activeTasks[taskName]]
    {
      spawned := None;
      var r := th.Call(GetTask(taskName));
      if !r.GotTask? {
        return r.NotFound?, None;
      }
      var ref := new TaskRef(r.task);
      var state := ref.task.status.state;
      if state == Unset {
        state := Pending;
        ref.task := ref.task.WithState(Pending);
        var updated, _, _ := UpdateTaskStatus(th, ref);
        if !updated {
          return false, None;
        }
      }

      match state
      case Pending => ok := Admit(th, ref);
      case Started => ok, spawned := EnsureSubmission(th, ref.task.name, gone, polls);
      case Running =>
        var checked, _ := CheckPod(th, ref);
        ok := checked;
      case Completed => ok := Finish(th, ref.task);
      case Failed => ok := CleanUpAndRetry(th, ref);
      case _ => ok := true;
    }

    /** The Pending branch: validate and start. */
    method Admit(th: Thread, ref: TaskRef) returns (ok: bool)
      requires th.Valid() && th.pc == OfLoop(PendingStep(ref.task)) && !LastCallFailed(th.log)
      modifies th, ref
      ensures th.Valid() && th.pc == OfLoop(LIdle) && th.trace.created == old(th.trace.created)
      ensures ok <==> !LastCallFailed(th.log)
    {
      var missing := ValidateTask(ref.task.spec);
      if missing != [] {
        return true;
      }
      ref.task := ref.task.WithState(Started);
      var updated, _, _ := UpdateTaskStatus(th, ref);
      ok := updated;
    }

    /** The second critical section of the Started branch. */
    method Insert(name: string, gone: set<string>, polls: nat)
      modifies this
      ensures name in activeTasks && fresh(activeTasks[name])
      ensures activeTasks == (old(activeTasks) - gone)[name := activeTasks[name]]
    {
      GoroutinesExit(gone);
      var runCtx := new Context(polls);
      activeTasks := activeTasks[name := runCtx];
    }

    /** The Started branch: one goroutine per task. The lookup and the insertion are two critical sections. */
    method EnsureSubmission(th: Thread, name: string, gone: set<string>, polls: nat) returns (ok: bool, spawned: Option<string>)
      requires th.Valid() && th.pc.OfLoop? && th.pc.l.LLookup? && th.pc.l.task.name == name
      modifies this, th
      ensures th.Valid() && th.pc == OfLoop(LIdle) && th.trace.created == old(th.trace.created)
      ensures ok <==> !LastCallFailed(th.log)
      ensures spawned == if name in old(activeTasks) then None else Some(name)
      ensures spawned.None? ==> activeTasks == old(activeTasks)
      ensures spawned.Some? ==>
                && name in activeTasks && fresh(activeTasks[name])
                && activeTasks == (old(activeTasks) - gone)[name := activeTasks[name]]
    {
      var active := name in activeTasks;
      th.Record(LookUp(name), Flag(active));
      ok := true;
      if active {
        spawned := None;
      } else {
        Insert(name, gone, polls);
        Go(th, name);
        spawned := Some(name);
      }
    }

    /** What the insertion and the start of the goroutine look like from outside. */
    ghost method Go(th: Thread, name: string)
      requires th.Valid() && th.pc.OfLoop? && th.pc.l.LInsert? && th.pc.l.task.name == name
      modifies th`pc, th`log, th`trace
      ensures th.Valid() && th.pc == OfLoop(LIdle) && th.trace.created == old(th.trace.created) && !LastCallFailed(th.log)
    {
      th.Record(Register(name), Done);
      th.Record(Spawn(name), Done);
    }

    /** The sandbox of a Completed task is closed, if it has one, and only then is the task deleted. */
    static ghost predicate Finishes(before: Log, log: Log, task: AgentTask) {
      log.Then? &&
      if task.status.claimName == "" then
        log.before == before && log.action == DeleteTask(task.name)
      else if log.action.CloseClaim? then
        && log.before == before && log.action == CloseClaim(task.status.claimName)
        && !log.response.Done? && !log.response.NotFound?
      else
        && log.action == DeleteTask(task.name) && log.before.Then? && log.before.before == before
        && log.before.action == CloseClaim(task.status.claimName)
        && (log.before.response.Done? || log.before.response.NotFound?)
    }

    /** The Completed branch: close the sandbox, then delete the task. */
    method Finish(th: Thread, task: AgentTask) returns (ok: bool)
      requires th.Valid() && task.status.state == Completed && th.pc == OfLoop(Dispatch(th.cfg, task))
      modifies th
      ensures th.Valid() && th.pc == OfLoop(LIdle) && th.trace.created == old(th.trace.created)
      ensures th.log.Then? && (ok <==> th.log.response.Done? || th.log.response.NotFound?)
      ensures Finishes(old(th.log), th.log, task)
      ensures ok <==> !LastCallFailed(th.log)
    {
      if task.status.claimName != "" {
        var closed, _ := Sandboxes.Close(th, task.status.claimName);
        if !closed {
          return false;
        }
      }
      var deleted := th.Call(DeleteTask(task.name));
      ok := deleted.Done? || deleted.NotFound?;
    }

    /** The Running branch: the pod decides. Completed is written exactly for a pod that succeeded, Failed exactly
        for one that failed or is gone, and nothing otherwise. */
    method CheckPod(th: Thread, ref: TaskRef) returns (ok: bool, ghost answer: Response)
      requires th.Valid() && ref.task.status.state == Running && !LastCallFailed(th.log)
      requires th.pc == OfLoop(Dispatch(th.cfg, ref.task))
      modifies th, ref
      ensures th.Valid() && th.pc == OfLoop(LIdle) && th.trace.created == old(th.trace.created)
      ensures if old(ref.task).status.podName == "" then th.log == old(th.log)
              else FollowsPod(old(th.log), th.log, old(ref.task), answer)
      ensures ok <==> !LastCallFailed(th.log)
    {
      answer := Failure;
      if ref.task.status.podName == "" {
        return true, answer;
      }
      var r := th.Call(GetPod(ref.task.status.podName));
      answer := r;
      if r.GotPod? { VerdictIsExact(r.pod); }
      if r.NotFound? {
        ref.task := ref.task.WithState(Failed);
        var updated, _, _ := UpdateTaskStatus(th, ref);
        ok := updated;
        return;
      }
      if !r.GotPod? {
        return false, answer;
      }
      ok := ActOnPod(th, ref, r.pod);
    }

    /** Writes what the pod's status calls for. */
    method ActOnPod(th: Thread, ref: TaskRef, pod: PodStatus) returns (ok: bool)
      requires th.Valid() && !LastCallFailed(th.log)
      requires th.pc == OfLoop(LoopNext(th.cfg, LPod(ref.task), GotPod(pod)))
      modifies th, ref
      ensures th.Valid() && th.pc == OfLoop(LIdle) && th.trace.created == old(th.trace.created)
      ensures var task, s := old(ref.task), old(ref.task.status);
              && (PodSucceeds(pod) ==> Updates(old(th.log), th.log, task.(status := s.(state := Completed))))
              && (PodFails(pod) ==> Updates(old(th.log), th.log, task.(status := s.(state := Failed))))
              && (!PodSucceeds(pod) && !PodFails(pod) ==> th.log == old(th.log))
      ensures ok <==> !LastCallFailed(th.log)
    {
      VerdictIsExact(pod);
      var terminated := FindTerminated(pod.containers);
      if terminated.Some? {
        if terminated.value == 0 {
          ref.task := ref.task.WithState(Completed);
        } else {
          ref.task := ref.task.WithState(Failed);
        }
        var updated, _, _ := UpdateTaskStatus(th, ref);
        ok := updated;
      } else if pod.phase == PodSucceeded {
        ref.task := ref.task.WithState(Completed);
        var updated, _, _ := UpdateTaskStatus(th, ref);
        ok := updated;
      } else if pod.phase == PodFailed {
        ref.task := ref.task.WithState(Failed);
        var updated, _, _ := UpdateTaskStatus(th, ref);
        ok := updated;
      } else {
        ok := true;
      }
    }

    /** The Failed branch: close the sandbox, clear its names, and start again if retries are left. */
    method CleanUpAndRetry(th: Thread, ref: TaskRef) returns (ok: bool)
      requires th.Valid() && th.cfg.maxRetries == maxRetries && ref.task.status.state == Failed && !LastCallFailed(th.log)
      requires th.pc == OfLoop(Dispatch(th.cfg, ref.task))
      modifies th, ref
      ensures th.Valid() && th.pc == OfLoop(LIdle) && th.trace.created == old(th.trace.created)
      ensures ok <==> !LastCallFailed(th.log)
    {
      if ref.task.status.claimName != "" {
        var closed, _ := Sandboxes.Close(th, ref.task.status.claimName);
        if !closed {
          return false;
        }
        ref.task := ref.task.(status := ref.task.status.Cleared());
        var updated, _, _ := UpdateTaskStatus(th, ref);
        if !updated {
          return false;
        }
      }
      ok := Retry(th, ref);
    }

    method Retry(th: Thread, ref: TaskRef) returns (ok: bool)
      requires th.Valid() && th.cfg.maxRetries == maxRetries && th.pc == OfLoop(RetryStep(th.cfg, ref.task))
      requires !LastCallFailed(th.log)
      modifies th, ref
      ensures th.Valid() && th.pc == OfLoop(LIdle) && th.trace.created == old(th.trace.created)
      ensures ok <==> !LastCallFailed(th.log)
    {
      if ref.task.status.retries < maxRetries {
        ref.task := Retried(ref.task);
        var updated, _, _ := UpdateTaskStatus(th, ref);
        ok := updated;
      } else {
        ok := true;
      }
    }

    /** Meanwhile others change the registry; nobody else touches this goroutine's own entry. */
    method OthersRegister(name: string, others: map<string, Context>)
      modifies this
      ensures activeTasks - {name} == others - {name}
      ensures name in activeTasks <==> name in old(activeTasks)
      ensures name in activeTasks ==> activeTasks[name] == old(activeTasks)[name]
    {
      activeTasks := if name in activeTasks then others[name := activeTasks[name]] else others - {name};
    }

    /** A submission goroutine: try until the task is submitted, is no longer Started, or the context
        ends. On every way out its entry is cancelled and removed, and no other: `others` is what the
        registry holds for other tasks by then. */
    method RunSandboxSubmission(th: Thread, ctx: Context, random: Random, taskName: string, others: map<string, Context>)
      returns (pauses: seq<int>)
      requires th.BeginsAt(OfSub(SPoll(taskName))) && !th.cfg.repaired
      requires taskName in activeTasks && activeTasks[taskName] == ctx
      modifies this, th, ctx, random
      ensures th.Valid() && th.pc == OfSub(SNone)
      ensures AllCalledFor(th.cfg, th.start, th.log) && forall a :: !Calls(th.cfg, th.start, th.log, a)
      ensures activeTasks == others - {taskName} && ctx.polls == 0
      ensures IsSchedule(pauses) && |pauses| == TraceOf(th.log).paused
    {
      pauses := SubmissionLoop(th, ctx, random, taskName);
      OthersRegister(taskName, others);
      if taskName in activeTasks {
        activeTasks[taskName].Cancel();
        activeTasks := activeTasks - {taskName};
      }
      th.Record(Unregister(taskName), Done);
      EndsWhereCalled(th);
    }

    method SubmissionLoop(th: Thread, ctx: Context, random: Random, taskName: string) returns (pauses: seq<int>)
      requires th.Valid() && !th.cfg.repaired && th.pc == OfSub(SPoll(taskName))
      modifies th, ctx, random
      ensures th.Valid() && th.pc == OfSub(SRemove(taskName))
      ensures IsSchedule(pauses) && |pauses| == th.trace.paused - old(th.trace.paused)
    {
      pauses := [];
      var backoff := 1 * SECOND;
      while true
        invariant th.Valid() && th.pc == OfSub(SPoll(taskName))
        invariant IsSchedule(pauses) && backoff == Base(|pauses|) && |pauses| == th.trace.paused - old(th.trace.paused)
        decreases ctx.polls
      {
        var again := Attempt(th, ctx, taskName);
        if !again {
          return;
        }
        var sleepTime, cancelled := Pause(th, ctx, random, taskName, backoff, |pauses|);
        pauses := pauses + [sleepTime];
        if cancelled {
          return;
        }
        BaseStep(|pauses| - 1);
        backoff := backoff * 2;
        if backoff > MAX_BACKOFF {
          backoff := MAX_BACKOFF;
        }
      }
    }

    /** Waits before the next pass, unless the context ends first. */
    method Pause(th: Thread, ctx: Context, random: Random, taskName: string, backoff: int, ghost n: nat)
      returns (sleepTime: int, cancelled: bool)
      requires th.Valid() && th.pc == OfSub(SSleep(taskName)) && backoff == Base(n)
      modifies th, ctx, random
      ensures th.Valid() && th.pc == OfSub(if cancelled then SRemove(taskName) else SPoll(taskName))
      ensures IsPause(n, sleepTime) && (!cancelled ==> ctx.polls < old(ctx.polls))
      ensures th.trace.paused == old(th.trace.paused) + 1
    {
      sleepTime := ChoosePause(random, backoff, n);
      cancelled := ctx.Done();
      th.Record(Sleep, Flag(cancelled));
    }

    /** One pass of the loop: `again` when the submission failed and is to be tried again. */
    method Attempt(th: Thread, ctx: Context, taskName: string) returns (again: bool)
      requires th.Valid() && !th.cfg.repaired && th.pc == OfSub(SPoll(taskName))
      modifies th, ctx
      ensures th.Valid() && th.pc == OfSub(if again then SSleep(taskName) else SRemove(taskName))
      ensures ctx.polls <= old(ctx.polls) && (again ==> old(ctx.polls) > 0) && th.trace.paused == old(th.trace.paused)
    {
      var done := ctx.Done();
      th.Record(PollContext, Flag(done));
      if done {
        return false;
      }
      again := ReadAndSubmit(th, ctx, taskName);
    }

    method ReadAndSubmit(th: Thread, ctx: Context, taskName: string) returns (again: bool)
      requires th.Valid() && !th.cfg.repaired && th.pc == OfSub(SGet(taskName))
      modifies th, ctx
      ensures th.Valid() && th.pc == OfSub(if again then SSleep(taskName) else SRemove(taskName))
      ensures ctx.polls <= old(ctx.polls) && th.trace.paused == old(th.trace.paused)
    {
      var r := th.Call(GetTask(taskName));
      if !r.GotTask? {
        return false;
      }
      var ref := new TaskRef(r.task);
      if ref.task.status.state != Started {
        return false;
      }
      again := SubmitAndRecord(th, ctx, ref);
    }

    method SubmitAndRecord(th: Thread, ctx: Context, ref: TaskRef) returns (again: bool)
      requires th.Valid() && !th.cfg.repaired && ref.task.status.state == Started
      requires th.pc == OfSub(SubNext(th.cfg, SGet(ref.task.name), GotTask(ref.task)))
      modifies th, ctx, ref
      ensures th.Valid() && ctx.polls <= old(ctx.polls) && th.trace.paused == old(th.trace.paused)
      ensures th.pc == OfSub(if again then SSleep(old(ref.task.name)) else SRemove(old(ref.task.name)))
    {
      var sb, _ := TrySubmitToSandbox(th, ctx, ref.task);
      if sb.Some? {
        ref.task := WithSandbox(ref.task, sb.value);
        var _, _, _ := UpdateTaskStatus(th, ref);
      }
      again := sb.None?;
    }

    method ChoosePause(random: Random, backoff: int, ghost n: nat) returns (sleepTime: int)
      requires backoff == Base(n)
      modifies random
      ensures IsPause(n, sleepTime)
    {
      BaseIsCappedPower(n);
      var jitter := random.Int63n(backoff);
      sleepTime := backoff + jitter;
      if sleepTime > MAX_BACKOFF {
        sleepTime := MAX_BACKOFF;
      }
      assert sleepTime == PauseFor(Base(n), jitter);
    }

    /** Creates a sandbox, obtains tokens and submits the task. `err` is the variable the deferred cleanup
        looks at; the submission's own error `submitErr` is a different variable of the same name there, so
        the cleanup never runs for it. What is created is also closed, except when the sandbox refuses the task. */
    method TrySubmitToSandbox(th: Thread, ctx: Context, task: AgentTask)
      returns (result: Option<Handle>, ghost refused: bool)
      requires th.Valid() && !th.cfg.repaired
      requires th.pc == OfSub(SubNext(th.cfg, SGet(task.name), GotTask(task))) && task.status.state == Started
      modifies th, ctx
      ensures th.Valid() && ctx.polls <= old(ctx.polls)
      ensures result.Some? ==>
                && th.pc == OfSub(SWrite(WithSandbox(task, result.value), false))
                && result.value.claim != "" && result.value.sandbox != "" && result.value.pod != ""
                && th.trace.created == old(th.trace.created) + [result.value.claim] && th.trace.closed == old(th.trace.closed)
      ensures result.None? ==> th.pc == OfSub(SSleep(task.name))
      ensures result.None? && !refused ==>
                exists claims ::
                  && th.trace.created == old(th.trace.created) + claims
                  && th.trace.closed == old(th.trace.closed) + claims
      ensures result.None? && refused ==>
                && (exists claim :: th.trace.created == old(th.trace.created) + [claim])
                && th.trace.closed == old(th.trace.closed)
                && Refused(th.log)
      ensures th.trace.paused == old(th.trace.paused)
      ensures if result.None? && !refused then th.trace.submitted == old(th.trace.submitted)
              else
                && Submits(th.log, task)
                && th.trace.submitted == old(th.trace.submitted) + [(th.log.action.handle, th.log.action.req)]
      ensures result.Some? ==> th.log.action.handle == result.value && th.log.response.Done?
    {
      refused := false;
      var created := Sandboxes.CreateSandbox(th, ctx, task, task.spec.sandboxTemplate);
      if created.None? {
        return None, false;
      }
      var sb := created.value;
      ghost var made := th.log;
      var err, submitErr := Deliver(th, task, sb);
      if err {
        var _, _ := Sandboxes.Close(th, sb.claim);
        assert th.trace.created == old(th.trace.created) + [sb.claim] && th.trace.closed == old(th.trace.closed) + [sb.claim];
        return None, false;
      }
      if submitErr {
        return None, true;
      }
      return Some(sb), false;
    }

    /** The last call submitted this task to the sandbox that was made for it, with the tokens generated for it just
        before. */
    static ghost predicate Submits(log: Log, task: AgentTask) {
      && log.Then? && log.before.Then?
      && log.action.SubmitTask?
      && IsHandle(log.before.before, log.action.handle)
      && Delivers(log.before.before, log, task, log.action.handle)
    }

    /** The last call was a submission that did not succeed. */
    static ghost predicate Refused(log: Log) {
      log.Then? && log.action.SubmitTask? && !log.response.Done?
    }

    method Deliver(th: Thread, task: AgentTask, sb: Handle) returns (err: bool, submitErr: bool)
      requires th.Valid() && !th.cfg.repaired && th.pc == OfSub(STokens(task, sb))
      modifies th
      ensures th.Valid() && th.trace.created == old(th.trace.created) && th.trace.closed == old(th.trace.closed)
      ensures th.trace.paused == old(th.trace.paused)
      ensures err ==> th.trace.submitted == old(th.trace.submitted)
      ensures !err ==>
                && Delivers(old(th.log), th.log, task, sb) && (submitErr <==> !th.log.response.Done?)
                && th.trace.submitted == old(th.trace.submitted) + [(sb, th.log.action.req)]
      ensures err ==> th.pc == OfSub(SClose(task, sb))
      ensures !err && submitErr ==> th.pc == OfSub(SSleep(task.name)) && Refused(th.log)
      ensures !err && !submitErr ==> th.pc == OfSub(SWrite(WithSandbox(task, sb), false))
    {
      submitErr := false;
      var tokResp := th.Call(GenerateTokens(task.name));
      err := !tokResp.GotTokens?;
      if err {
        return;
      }
      var taskReq := TaskRequest(
        task.name, tokResp.tokens.callbackToken, tokResp.tokens.gitHubToken,
        task.spec.repoOwner, task.spec.repoName, task.spec.taskOwner, task.spec.taskOwnerEmail,
        task.spec.taskType, task.spec.prompt, task.spec.issueNumber);
      var submitted := th.Call(SubmitTask(sb, taskReq));
      submitErr := !submitted.Done?;
    }
  }
}
