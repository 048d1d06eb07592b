/** A running agent, seen from its own code: it makes calls and gets answers it cannot predict. The
    ghost program counter keeps the code on the agent's automaton: a call is allowed only where the
    automaton makes that very call. */
module Threads {
  import opened AgentTasks
  import opened Protocol

  datatype Pc = OfLoop(l: LoopPc) | OfSub(s: SubPc) | OfCb(c: CbPc) | OfTok(t: TokPc)

  /** The calls an agent has made and the answers it got, latest last. */
  datatype Log = Begin | Then(before: Log, action: Action, response: Response)

  function Act(pc: Pc): Action {
    match pc
    case OfLoop(l) => LoopAct(l)
    case OfSub(s) => SubAct(s)
    case OfCb(c) => CbAct(c)
    case OfTok(t) => TokAct(t)
  }

  function Next(cfg: Config, pc: Pc, r: Response): Pc {
    match pc
    case OfLoop(l) => OfLoop(LoopNext(cfg, l, r))
    case OfSub(s) => OfSub(SubNext(cfg, s, r))
    case OfCb(c) => OfCb(CbNext(c, r))
    case OfTok(t) => OfTok(TokNext(t, r))
  }

  /** Where a log leads, or None when it leaves the automaton. */
  ghost function Follow(cfg: Config, start: Pc, log: Log): Option<Pc> {
    match log
    case Begin => Some(start)
    case Then(before, action, response) =>
      var pc := Follow(cfg, start, before);
      if pc.Some? && action == Act(pc.value) then Some(Next(cfg, pc.value, response)) else None
  }

  /** What a log shows of sandboxes: the claims created and those asked to be deleted, the warm pools that claims
      were asked from, the tasks handed over, and the number of pauses taken. */
  datatype Trace = Trace(
    created: seq<string>,
    closed: seq<string>,
    pools: seq<string>,
    submitted: seq<(Handle, TaskRequest)>,
    paused: nat)
  {
    function Closing(claim: string): Trace { this.(closed := closed + [claim]) }
  }

  ghost function TraceOf(log: Log): Trace {
    match log
    case Begin => Trace([], [], [], [], 0)
    case Then(before, a, r) => Extended(TraceOf(before), a, r)
  }

  function Extended(t: Trace, a: Action, r: Response): Trace {
    match a
    case CreateClaim(pool) => t.(pools := t.pools + [pool], created := if r.Text? then t.created + [r.text] else t.created)
    case CloseClaim(claim) => t.(closed := t.closed + [claim])
    case SubmitTask(h, req) => t.(submitted := t.submitted + [(h, req)])
    case Sleep => t.(paused := t.paused + 1)
    case _ => t
  }

  /** What the orchestrator treats as an error; that an object is not there is an answer like any other. */
  ghost predicate Fails(a: Action, r: Response) {
    match a
    case GetTask(_) => !r.GotTask? && !r.NotFound?
    case WriteStatus(_) => !r.GotTask?
    case WriteObject(_) => !r.GotTask?
    case GetPod(_) => !r.GotPod? && !r.NotFound?
    case CloseClaim(_) => !r.Done? && !r.NotFound?
    case DeleteTask(_) => !r.Done? && !r.NotFound?
    case _ => false
  }

  ghost predicate LastCallFailed(log: Log) {
    log.Then? && Fails(log.action, log.response)
  }

  /** The server answers about the object it was asked for, and gives every new claim a name. */
  predicate IsSane(a: Action, r: Response) {
    && (a.CreateClaim? && r.Text? ==> r.text != "")
    && (a.GetTask? && r.GotTask? ==> r.task.name == a.name)
    && ((a.WriteStatus? || a.WriteObject?) && r.GotTask? ==> r.task.name == a.task.name)
  }

  /** Every call is a real one, and is answered sanely. */
  ghost predicate SaneLog(log: Log) {
    log.Then? ==> SaneLog(log.before) && log.action != Nothing && IsSane(log.action, log.response)
  }

  class Thread {
    const cfg: Config
    const oracle: nat -> Response
    var asked: nat
    ghost const start: Pc
    ghost var pc: Pc
    ghost var log: Log
    ghost var trace: Trace

    ghost predicate Valid()
      reads this
    {
      && Follow(cfg, start, log) == Some(pc)
      && SaneLog(log)
      && trace == TraceOf(log)
    }

    /** Nothing was called yet. */
    ghost predicate BeginsAt(pc: Pc)
      reads this
    {
      Valid() && this.pc == pc && start == pc && log == Begin
    }

    constructor (cfg: Config, oracle: nat -> Response, ghost start: Pc)
      ensures BeginsAt(start) && this.cfg == cfg
    {
      this.cfg := cfg;
      this.oracle := oracle;
      this.start := start;
      asked := 0;
      pc := start;
      log := Begin;
      trace := TraceOf(Begin);
    }

    /** A call to another component: any answer may come back. */
    method Call(a: Action) returns (r: Response)
      requires Valid() && a == Act(pc) && a != Nothing
      modifies this
      ensures Valid() && pc == Next(cfg, old(pc), r)
      ensures log == Then(old(log), a, r)
      ensures trace == Extended(old(trace), a, r)
      ensures IsSane(a, r)
    {
      r := oracle(asked);
      asked := asked + 1;
      if !IsSane(a, r) { r := Failure; }
      Record(a, r);
    }

    /** An answer the agent found by itself, such as a look into its own memory. */
    ghost method Record(a: Action, r: Response)
      requires Valid() && a == Act(pc) && a != Nothing && IsSane(a, r)
      modifies this`pc, this`log, this`trace
      ensures Valid() && pc == Next(cfg, old(pc), r)
      ensures log == Then(old(log), a, r)
      ensures trace == Extended(old(trace), a, r)
    {
      pc := Next(cfg, pc, r);
      log := Then(log, a, r);
      trace := Extended(trace, a, r);
    }
  }

  /** A context. It is cancelled by `Cancel`, or after any finite number of polls. */
  class Context {
    var polls: nat

    constructor (polls: nat)
      ensures this.polls == polls
    {
      this.polls := polls;
    }

    method Done() returns (done: bool)
      modifies this
      ensures done == (old(polls) == 0)
      ensures polls == if done then 0 else old(polls) - 1
    {
      done := polls == 0;
      if !done { polls := polls - 1; }
    }

    method Cancel()
      modifies this
      ensures polls == 0
    {
      polls := 0;
    }
  }
}
