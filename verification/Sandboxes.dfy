/** The sandbox client (pkg/sandbox/client.go): creating a sandbox from a claim and closing it. */
module Sandboxes {
  import opened AgentTasks
  import opened Protocol
  import opened Threads
  import opened Histories

  /** The text without the suffix, if it ends in it. */
  function TrimSuffix(s: string, suffix: string): (r: string)
    ensures s == r + suffix || (r == s && forall stem :: s != stem + suffix)
  {
    if |suffix| <= |s| && s[|s| - |suffix|..] == suffix then
      assert s == s[..|s| - |suffix|] + suffix;
      s[..|s| - |suffix|]
    else s
  }

  /** Provisions a sandbox: create a claim, poll it for its sandbox's name, poll the sandbox until it is
      ready, look up the pod's address. Every way out after the claim exists, except success, first asks
      for the claim's deletion. */
  method CreateSandbox(th: Thread, ctx: Context, ghost task: AgentTask, template: string) returns (sb: Option<Handle>)
    requires th.Valid() && template == task.spec.sandboxTemplate
    requires template != "" ==> th.pc == OfSub(SCreate(task))
    requires template == "" ==> th.pc == OfSub(SSleep(task.name))
    modifies th, ctx
    ensures th.Valid() && ctx.polls <= old(ctx.polls)
    ensures th.trace.submitted == old(th.trace.submitted) && th.trace.paused == old(th.trace.paused)
    ensures template == "" ==> th.trace.pools == old(th.trace.pools)
    ensures template != "" ==> exists pool :: IsPoolOf(template, pool) && th.trace.pools == old(th.trace.pools) + [pool]
    ensures sb.Some? ==>
              && template != ""
              && th.pc == OfSub(STokens(task, sb.value)) && IsHandle(th.log, sb.value)
              && sb.value.claim != "" && sb.value.sandbox != "" && sb.value.pod != ""
              && th.trace.created == old(th.trace.created) + [sb.value.claim]
              && th.trace.closed == old(th.trace.closed)
    ensures sb.None? ==>
              && th.pc == OfSub(SSleep(task.name))
              && exists claims ::
                   && th.trace.created == old(th.trace.created) + claims
                   && th.trace.closed == old(th.trace.closed) + claims
  {
    if template == "" {
      assert th.trace.created == old(th.trace.created) + [] && th.trace.closed == old(th.trace.closed) + [];
      return None;
    }
    var warmpool := TrimSuffix(template, "-template");
    warmpool := warmpool + "-warmpool";
    assert IsPoolOf(template, warmpool);
    var created := th.Call(CreateClaim(warmpool));
    if !created.Text? {
      assert th.trace.created == old(th.trace.created) + [] && th.trace.closed == old(th.trace.closed) + [];
      return None;
    }
    sb := AwaitSandbox(th, ctx, task, created.text);
  }

  /** From the claim to a ready sandbox. */
  method AwaitSandbox(th: Thread, ctx: Context, ghost task: AgentTask, claim: string) returns (sb: Option<Handle>)
    requires th.Valid() && th.pc == OfSub(SClaimTick(task, claim)) && LastClaim(th.log) == Some(claim)
    modifies th, ctx
    ensures th.Valid() && ctx.polls <= old(ctx.polls)
    ensures sb.Some? ==>
              && th.pc == OfSub(STokens(task, sb.value)) && th.trace == old(th.trace) && IsHandle(th.log, sb.value)
              && sb.value.claim == claim && sb.value.sandbox != "" && sb.value.pod != ""
    ensures sb.None? ==> th.pc == OfSub(SSleep(task.name)) && th.trace == old(th.trace).Closing(claim)
  {
    var named := AwaitName(th, ctx, task, claim);
    if named.None? {
      return None;
    }
    var sandboxName := named.value;
    var ready := AwaitReady(th, ctx, task, claim, sandboxName);
    if ready.None? {
      return None;
    }
    var (podName, sbObjIPs) := ready.value;
    var podIP := FirstIP(sbObjIPs);
    var pod := th.Call(GetPod(podName));
    if pod.GotPod? {
      podIP := pod.pod.ip;
    }
    sb := Some(Handle(claim, sandboxName, podName, podIP));
  }

  method Cleanup(th: Thread, ghost task: AgentTask, claim: string)
    requires th.Valid() && th.pc == OfSub(SCleanup(task, claim))
    modifies th
    ensures th.Valid() && th.pc == OfSub(SSleep(task.name))
    ensures th.trace == old(th.trace).Closing(claim)
  {
    var _ := th.Call(CloseClaim(claim));
  }

  /** The start of a round of polling: a cancelled context ends it, and asks for the claim's deletion. */
  method Poll(th: Thread, ctx: Context, ghost task: AgentTask, claim: string) returns (done: bool)
    requires th.Valid() && Act(th.pc) == PollContext
    requires Next(th.cfg, th.pc, Flag(true)) == OfSub(SCleanup(task, claim))
    modifies th, ctx
    ensures th.Valid()
    ensures if done then ctx.polls == 0 else ctx.polls == old(ctx.polls) - 1
    ensures done ==> th.pc == OfSub(SSleep(task.name)) && th.trace == old(th.trace).Closing(claim)
    ensures !done ==> th.pc == Next(th.cfg, old(th.pc), Flag(false)) && th.trace == old(th.trace)
    ensures !done ==> th.log == Then(old(th.log), PollContext, Flag(false))
  {
    done := ctx.Done();
    th.Record(PollContext, Flag(done));
    if done {
      Cleanup(th, task, claim);
    }
  }

  /** The first polling loop: until the claim names its sandbox. */
  method AwaitName(th: Thread, ctx: Context, ghost task: AgentTask, claim: string) returns (name: Option<string>)
    requires th.Valid() && th.pc == OfSub(SClaimTick(task, claim)) && LastClaim(th.log) == Some(claim)
    modifies th, ctx
    ensures th.Valid() && ctx.polls <= old(ctx.polls)
    ensures name.Some? ==>
              && name.value != "" && th.pc == OfSub(SSandboxTick(task, claim, name.value)) && th.trace == old(th.trace)
              && LastClaim(th.log) == Some(claim) && LastName(th.log) == name
    ensures name.None? ==>
              th.pc == OfSub(SSleep(task.name)) && th.trace == old(th.trace).Closing(claim)
  {
    var sandboxName := "";
    while sandboxName == ""
      invariant th.Valid() && ctx.polls <= old(ctx.polls)
      invariant th.pc == OfSub(if sandboxName == "" then SClaimTick(task, claim) else SSandboxTick(task, claim, sandboxName))
      invariant th.trace == old(th.trace)
      invariant LastClaim(th.log) == Some(claim) && (sandboxName != "" ==> LastName(th.log) == Some(sandboxName))
      decreases sandboxName == "", ctx.polls
    {
      var done := Poll(th, ctx, task, claim);
      if done {
        return None;
      }
      var r := th.Call(GetClaim(claim));
      if !r.Text? {
        Cleanup(th, task, claim);
        return None;
      }
      sandboxName := r.text;
    }
    name := Some(sandboxName);
  }

  /** One round of the second polling loop: a cancelled context or an error asks for the claim's deletion. */
  method LookAtSandbox(th: Thread, ctx: Context, ghost task: AgentTask, claim: string, sandboxName: string)
    returns (seen: Option<SandboxStatus>)
    requires th.Valid() && th.pc == OfSub(SSandboxTick(task, claim, sandboxName))
    modifies th, ctx
    ensures th.Valid()
    ensures if seen.None? then ctx.polls <= old(ctx.polls) else ctx.polls == old(ctx.polls) - 1
    ensures seen.None? ==> th.pc == OfSub(SSleep(task.name)) && th.trace == old(th.trace).Closing(claim)
    ensures seen.Some? ==>
              && th.pc == OfSub(SubNext(th.cfg, SSandbox(task, claim, sandboxName), GotSandbox(seen.value)))
              && th.log == Then(Then(old(th.log), PollContext, Flag(false)), GetSandbox(sandboxName), GotSandbox(seen.value))
              && th.trace == old(th.trace)
  {
    var done := Poll(th, ctx, task, claim);
    if done {
      return None;
    }
    var r := th.Call(GetSandbox(sandboxName));
    if !r.GotSandbox? {
      Cleanup(th, task, claim);
      return None;
    }
    seen := Some(r.sandbox);
  }

  /** The second polling loop: until the sandbox is ready. The pod is named by an annotation, or like the sandbox. */
  method AwaitReady(th: Thread, ctx: Context, ghost task: AgentTask, claim: string, sandboxName: string)
    returns (ready: Option<(string, seq<string>)>)
    requires th.Valid() && th.pc == OfSub(SSandboxTick(task, claim, sandboxName)) && sandboxName != ""
    requires LastClaim(th.log) == Some(claim) && LastName(th.log) == Some(sandboxName)
    modifies th, ctx
    ensures th.Valid() && ctx.polls <= old(ctx.polls)
    ensures ready.Some? ==>
              && ready.value.0 != ""
              && LastClaim(th.log) == Some(claim) && LastName(th.log) == Some(sandboxName)
              && LastSandbox(th.log).Some? && NamesPod(LastSandbox(th.log).value, sandboxName, ready.value.0)
              && LastSandbox(th.log).value.podIPs == ready.value.1
              && th.pc == OfSub(SPodIP(task, Handle(claim, sandboxName, ready.value.0, FirstIP(ready.value.1))))
              && th.trace == old(th.trace)
    ensures ready.None? ==>
              th.pc == OfSub(SSleep(task.name)) && th.trace == old(th.trace).Closing(claim)
  {
    var podName := "";
    var sbObjIPs: seq<string> := [];
    while podName == ""
      invariant th.Valid() && ctx.polls <= old(ctx.polls)
      invariant th.pc == OfSub(if podName == "" then SSandboxTick(task, claim, sandboxName)
                               else SPodIP(task, Handle(claim, sandboxName, podName, FirstIP(sbObjIPs))))
      invariant th.trace == old(th.trace)
      invariant LastClaim(th.log) == Some(claim) && LastName(th.log) == Some(sandboxName)
      invariant podName != "" ==>
                  && LastSandbox(th.log).Some? && NamesPod(LastSandbox(th.log).value, sandboxName, podName)
                  && LastSandbox(th.log).value.podIPs == sbObjIPs
      decreases podName == "", ctx.polls
    {
      var seen := LookAtSandbox(th, ctx, task, claim, sandboxName);
      if seen.None? {
        return None;
      }
      var sandbox := seen.value;
      var isReady := AnyReady(sandbox.conditions);
      if isReady {
        sbObjIPs := sandbox.podIPs;
        podName := sandbox.podAnnotation;
        if podName == "" {
          podName := sandboxName;
        }
      }
    }
    ready := Some((podName, sbObjIPs));
  }

  /** The loop over the sandbox's conditions. */
  method AnyReady(conditions: seq<(string, string)>) returns (ready: bool)
    ensures ready <==> ("Ready", "True") in conditions
  {
    ready := false;
    for i := 0 to |conditions|
      invariant !ready && ("Ready", "True") !in conditions[..i]
    {
      if conditions[i].0 == "Ready" && conditions[i].1 == "True" {
        ready := true;
        assert conditions[i] == ("Ready", "True");
        break;
      }
    }
  }

  /** Deletes the claim; a claim that is already gone counts as closed. */
  method Close(th: Thread, claimName: string) returns (ok: bool, ghost r: Response)
    requires th.Valid() && (claimName != "" ==> Act(th.pc) == CloseClaim(claimName))
    modifies th
    ensures th.Valid()
    ensures claimName == "" ==> ok && th.log == old(th.log) && th.pc == old(th.pc) && th.trace == old(th.trace)
    ensures claimName != "" ==>
              && th.pc == Next(th.cfg, old(th.pc), r)
              && th.trace == old(th.trace).Closing(claimName)
              && th.log == Then(old(th.log), CloseClaim(claimName), r)
              && (ok <==> r.Done? || r.NotFound?)
              && (ok <==> !LastCallFailed(th.log))
  {
    r := Failure;
    if claimName == "" {
      return true, r;
    }
    var answer := th.Call(CloseClaim(claimName));
    r := answer;
    ok := answer.Done? || answer.NotFound?;
  }
}
