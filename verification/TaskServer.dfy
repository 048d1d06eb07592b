/** The sandbox server's POST /task endpoint (pkg/sandbox/http.go): one task per server. */
module TaskServer {
  import opened AgentTasks
  import opened Protocol

  /** What the body of a request decodes to; None when it is not valid JSON. */
  datatype HttpRequest = HttpRequest(isPost: bool, body: Option<TaskRequest>)

  predicate FieldsOk(req: TaskRequest) {
    && req.taskName != ""
    && req.callbackToken != ""
    && req.gitHubToken != ""
    && req.repoOwner != ""
    && req.repoName != ""
    && req.taskType != ""
    && (req.taskType == "pr" ==> req.taskOwner != "" && req.taskOwnerEmail != "")
    && req.prompt != ""
  }

  predicate ValidRequest(r: HttpRequest) {
    r.isPost && r.body.Some? && FieldsOk(r.body.value)
  }

  function Listed(absent: bool, field: string): seq<string> {
    if absent then [field] else []
  }

  method Require(missing: seq<string>, value: string, field: string) returns (longer: seq<string>)
    ensures longer == missing + Listed(value == "", field)
  {
    longer := missing;
    if value == "" {
      longer := longer + [field];
    }
  }

  /** A pull request is made in somebody's name. */
  method RequireOwner(missing: seq<string>, req: TaskRequest) returns (longer: seq<string>)
    ensures longer == missing + Listed(req.taskType == "pr" && req.taskOwner == "", "taskOwner")
                      + Listed(req.taskType == "pr" && req.taskOwnerEmail == "", "taskOwnerEmail")
  {
    longer := missing;
    if req.taskType == "pr" {
      longer := Require(longer, req.taskOwner, "taskOwner");
      longer := Require(longer, req.taskOwnerEmail, "taskOwnerEmail");
    }
  }

  /** Lists the required fields that are empty, each under its own name, in this order. */
  method MissingFields(req: TaskRequest) returns (missing: seq<string>)
    ensures missing == [] <==> FieldsOk(req)
    ensures missing ==
              Listed(req.taskName == "", "taskName") + Listed(req.callbackToken == "", "callbackToken")
              + Listed(req.gitHubToken == "", "githubToken") + Listed(req.repoOwner == "", "repoOwner")
              + Listed(req.repoName == "", "repoName") + Listed(req.taskType == "", "taskType")
              + Listed(req.taskType == "pr" && req.taskOwner == "", "taskOwner")
              + Listed(req.taskType == "pr" && req.taskOwnerEmail == "", "taskOwnerEmail")
              + Listed(req.prompt == "", "prompt")
  {
    missing := Require([], req.taskName, "taskName");
    assert missing == Listed(req.taskName == "", "taskName");
    missing := Require(missing, req.callbackToken, "callbackToken");
    missing := Require(missing, req.gitHubToken, "githubToken");
    missing := Require(missing, req.repoOwner, "repoOwner");
    missing := Require(missing, req.repoName, "repoName");
    missing := Require(missing, req.taskType, "taskType");
    missing := RequireOwner(missing, req);
    missing := Require(missing, req.prompt, "prompt");
  }

  // ----- requests one after the other -----

  /** The status code, given whether a task was already accepted. */
  function StatusCode(accepted: bool, r: HttpRequest): int {
    if accepted || !r.isPost then 405
    else if r.body.None? || !FieldsOk(r.body.value) then 400
    else 200
  }

  class Server {
    var taskAccepted: bool
    var runs: seq<TaskRequest>

    constructor ()
      ensures !taskAccepted && runs == []
    {
      taskAccepted := false;
      runs := [];
    }

    ghost predicate Valid()
      reads this
    {
      taskAccepted <==> runs != []
    }

    method TaskHandler(r: HttpRequest) returns (code: int)
      requires Valid()
      modifies this
      ensures Valid()
      ensures code == StatusCode(old(taskAccepted), r)
      ensures code == 200 <==> !old(taskAccepted) && ValidRequest(r)
      ensures code == 405 <==> old(taskAccepted) || !r.isPost
      ensures code in {200, 400, 405}
      ensures taskAccepted <==> old(taskAccepted) || ValidRequest(r)
      ensures runs == old(runs) + (if code == 200 then [r.body.value] else [])
    {
      if taskAccepted {
        return 405;
      }
      if !r.isPost {
        return 405;
      }
      if r.body.None? {
        return 400;
      }
      var missing := MissingFields(r.body.value);
      if missing != [] {
        return 400;
      }
      taskAccepted := true;
      runs := runs + [r.body.value];
      code := 200;
    }

    /** Any sequence of requests that do not overlap: exactly the first valid one starts a run, nothing
        before it latches the server, everything after it gets 405. */
    method ServeAll(rs: seq<HttpRequest>) returns (codes: seq<int>)
      requires !taskAccepted && runs == []
      modifies this
      ensures |codes| == |rs|
      ensures forall i :: 0 <= i < |rs| ==> (codes[i] == 200 <==> ValidRequest(rs[i]) && !AnyValid(rs[..i]))
      ensures forall i :: 0 <= i < |rs| && AnyValid(rs[..i]) ==> codes[i] == 405
      ensures taskAccepted <==> AnyValid(rs)
      ensures |runs| == (if AnyValid(rs) then 1 else 0)
    {
      codes := [];
      for i := 0 to |rs|
        invariant Valid() && |codes| == i
        invariant taskAccepted <==> AnyValid(rs[..i])
        invariant |runs| == (if taskAccepted then 1 else 0)
        invariant forall k :: 0 <= k < i ==> (codes[k] == 200 <==> ValidRequest(rs[k]) && !AnyValid(rs[..k]))
        invariant forall k :: 0 <= k < i && AnyValid(rs[..k]) ==> codes[k] == 405
      {
        var code := TaskHandler(rs[i]);
        codes := codes + [code];
        assert rs[..i + 1] == rs[..i] + [rs[i]];
      }
      assert rs[..|rs|] == rs;
    }
  }

  ghost predicate AnyValid(rs: seq<HttpRequest>) {
    exists r :: r in rs && ValidRequest(r)
  }

  // ----- overlapping requests: the load and the store of the latch are separate steps -----

  datatype HandlerPc = HLoad | HStore | HReplied(code: int)

  datatype Latch = Latch(accepted: bool, pcs: seq<HandlerPc>, started: set<nat>)

  /** Request i takes its next step: everything up to the decision, or the store and the start of its run. */
  function LatchStep(reqs: seq<HttpRequest>, s: Latch, i: nat): Latch
    requires |s.pcs| == |reqs| && i < |reqs|
  {
    match s.pcs[i]
    case HLoad =>
      var code := StatusCode(s.accepted, reqs[i]);
      s.(pcs := s.pcs[i := if code == 200 then HStore else HReplied(code)])
    case HStore => s.(accepted := true, pcs := s.pcs[i := HReplied(200)], started := s.started + {i})
    case HReplied(_) => s
  }

  predicate InRange(schedule: seq<nat>, n: nat) {
    forall k :: 0 <= k < |schedule| ==> schedule[k] < n
  }

  function LatchRun(reqs: seq<HttpRequest>, schedule: seq<nat>): (s: Latch)
    requires InRange(schedule, |reqs|)
    ensures |s.pcs| == |reqs|
  {
    if schedule == [] then Latch(false, seq(|reqs|, _ => HLoad), {})
    else LatchStep(reqs, LatchRun(reqs, schedule[..|schedule| - 1]), schedule[|schedule| - 1])
  }

  /** Request i takes its first step at position k: there it loads the latch. */
  ghost predicate LoadsAt(schedule: seq<nat>, k: int, i: nat) {
    0 <= k < |schedule| && schedule[k] == i && i !in schedule[..k]
  }

  /** A valid request whose load preceded the first store. */
  ghost predicate Early(reqs: seq<HttpRequest>, schedule: seq<nat>, i: nat)
    requires InRange(schedule, |reqs|) && i < |reqs|
  {
    ValidRequest(reqs[i]) && exists k :: LoadsAt(schedule, k, i) && !LatchRun(reqs, schedule[..k]).accepted
  }

  lemma EarlyStep(reqs: seq<HttpRequest>, schedule: seq<nat>, i: nat)
    requires InRange(schedule, |reqs|) && i < |reqs| && schedule != []
    ensures var before, last := schedule[..|schedule| - 1], schedule[|schedule| - 1];
            Early(reqs, schedule, i) <==>
              Early(reqs, before, i)
              || (ValidRequest(reqs[i]) && last == i && i !in before && !LatchRun(reqs, before).accepted)
  {
    var n := |schedule| - 1;
    var before := schedule[..n];
    forall k | 0 <= k <= n ensures schedule[..k] == before[..k] {
    }
    forall k | 0 <= k < n ensures LoadsAt(schedule, k, i) <==> LoadsAt(before, k, i) {
    }
    if Early(reqs, before, i) {
      var k :| LoadsAt(before, k, i) && !LatchRun(reqs, before[..k]).accepted;
      assert LoadsAt(schedule, k, i) && schedule[..k] == before[..k];
    }
    if schedule[n] == i && i !in before {
      assert LoadsAt(schedule, n, i);
    }
  }

  /** Where request i stands. */
  ghost predicate RequestOk(reqs: seq<HttpRequest>, schedule: seq<nat>, i: nat)
    requires InRange(schedule, |reqs|) && i < |reqs|
  {
    var s := LatchRun(reqs, schedule);
    && (s.pcs[i] == HLoad <==> i !in schedule)
    && (i in s.started <==> s.pcs[i] == HReplied(200))
    && (Early(reqs, schedule, i) <==> i in s.started || s.pcs[i] == HStore)
    && (s.pcs[i].HReplied? && i !in s.started && ValidRequest(reqs[i]) ==> s.accepted)
  }

  lemma {:induction false} LatchInvariant(reqs: seq<HttpRequest>, schedule: seq<nat>)
    requires InRange(schedule, |reqs|)
    ensures var s := LatchRun(reqs, schedule);
            && (s.accepted <==> s.started != {})
            && (forall i :: i in s.started ==> i < |reqs|)
            && (forall i: nat :: i < |reqs| ==> RequestOk(reqs, schedule, i))
  {
    if schedule != [] {
      var before, last := schedule[..|schedule| - 1], schedule[|schedule| - 1];
      LatchInvariant(reqs, before);
      forall i: nat | i < |reqs| ensures RequestOk(reqs, schedule, i) {
        assert RequestOk(reqs, before, i);
        EarlyStep(reqs, schedule, i);
        assert i in schedule <==> i in before || i == last by { assert schedule == before + [last]; }
        if Early(reqs, before, i) {
          var k :| LoadsAt(before, k, i);
          assert i in before by { assert before[k] == i; }
        }
      }
    }
  }

  /** Once every request is answered, the runs started are exactly those of the valid requests that loaded the
      latch before its first store. */
  lemma RunsAreTheEarlyRequests(reqs: seq<HttpRequest>, schedule: seq<nat>)
    requires InRange(schedule, |reqs|)
    requires var s := LatchRun(reqs, schedule); forall i :: 0 <= i < |reqs| ==> s.pcs[i].HReplied?
    ensures forall i: nat :: i < |reqs| ==> (i in LatchRun(reqs, schedule).started <==> Early(reqs, schedule, i))
    ensures LatchRun(reqs, schedule).started != {} <==> AnyValid(reqs)
  {
    LatchInvariant(reqs, schedule);
    var s := LatchRun(reqs, schedule);
    forall i: nat | i < |reqs| ensures i in s.started <==> Early(reqs, schedule, i) {
      assert RequestOk(reqs, schedule, i);
    }
    if i: nat :| i in s.started {
      assert Early(reqs, schedule, i);
      assert reqs[i] in reqs;
    }
    if AnyValid(reqs) {
      var r :| r in reqs && ValidRequest(r);
      var i :| 0 <= i < |reqs| && reqs[i] == r;
      assert RequestOk(reqs, schedule, i) && s.pcs[i].HReplied?;
    }
  }

  /** Two valid requests that both load before either stores start two runs. */
  lemma OverlapStartsTwo(a: HttpRequest, b: HttpRequest)
    requires ValidRequest(a) && ValidRequest(b)
    ensures LatchRun([a, b], [0, 1, 0, 1]).started == {0, 1}
  {
    var reqs := [a, b];
    assert LatchRun(reqs, []).pcs == [HLoad, HLoad];
    assert LatchRun(reqs, [0]) == LatchStep(reqs, LatchRun(reqs, []), 0);
    assert [0, 1][..1] == [0] && [0, 1, 0][..2] == [0, 1] && [0, 1, 0, 1][..3] == [0, 1, 0];
    assert LatchRun(reqs, [0, 1]).pcs == [HStore, HStore];
    assert LatchRun(reqs, [0, 1, 0]).pcs == [HReplied(200), HStore];
  }
}
