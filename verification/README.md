# The AgentTask lifecycle, modelled and proved in Dafny

Cloud Agent runs coding agents on GitHub issues. One Kubernetes object, the AgentTask, is acted on by
several agents at once: the orchestrator's reconcile loop, a submission goroutine, the webhook
listener's callback and token handlers, and the sandbox that does the work. Every one of them reads the
object, does something to the outside world, and then writes back with the version it read. This project
models that protocol and proves what holds under every interleaving and every pattern of API errors.

`dafny verify dfyconfig.toml` checks everything.

## How it is built

* **AgentTasks, Protocol** – the resource, and the control flow of the agents: one small automaton each,
  with the call made at every program counter and the place each answer leads to.
* **World** – one task with everything that acts on it. A step is one call by one agent; the store compares
  versions; a write or delete may take effect and still be reported as an error; every read may fail; claim
  names and tokens are new. The sandboxes' runners report their results through callbacks and leave with 0 only
  when they hear of a 200. `Config.repaired` switches between the submission's error path as written and with
  the deferred cleanup working; `Config.faithful` restricts pods to those that terminate successfully only when
  their runner left with 0.
* **Invariant, Preservation** – the atomic machine, the invariant, and its preservation step by step.
  **Answering** does the same for callback tokens, **Naming** for the stored names, **Repairing** for the repaired
  error path, **Addressing** for the task that each agent deals with.
* **Lifecycle, ClaimLedger, RunningWrites, AnswerOnce, Resubmitting** – the theorems about reachable worlds and whole
  runs; **SampleRuns** has the concrete runs that show what does happen. **Fleet** puts all tasks of a namespace
  together: one loop, claim names unique across tasks, and one token store that goes by task name.
* **Threads, Orchestration, Sandboxes, Listening** – the executable code, loops and in-place updates included. A
  `Thread` carries a ghost program counter: a call is allowed only where the automaton makes that very call.
* **Histories, Tracing** – what each agent calls next, with every argument, said once more from its history alone: from
  its calls and the answers, in plain terms, without program counters and without the automata's functions. A log
  keeps to an automaton if and only if every call in it is the one that the history calls for (`FollowsExactly`), so
  every method's log is right call by call.
* **Calls** – the bridge between code and interleavings. Whatever log of calls and answers a thread has, with every answer one that
  the shared state allows at that moment and with any steps of the others in between, World has a run in which the
  agent makes just these calls (`LogsAreRuns`). So the theorems about all interleavings hold at every moment of every
  method (`ThreadsAreCovered`; `CodeClosesSafely` is one of them, spelled out).
* **Backoff, TokenStores, Sanitizing, Running, TaskServer, Signatures, Resources** – the sequential parts.

## Where the code does not do what one would expect

* The error of `SubmitTask` is a different variable from the one the deferred cleanup looks at
  (pkg/orchestrator/controller.go:380 and 354). The sandbox is not closed and its claim is live for ever
  (`SubmitErrorPath`, `SubmitErrorLeaksForever`, `LeakIsReachable`). With the repair such a claim is left behind only
  by a failed delete (`RepairedErrorsLeaveFailedDeletes`).
* A callback that commits Completed before the Running write costs the new claim: the claim can still be recorded
  if and only if the version that the goroutine read is still stored (`RecordedIffCurrent`); if not, it is live and
  recorded nowhere in every continuation (`StaleWriteOrphans`). It happens, for every valid spec
  (`CallbackOvertakesRunningWrite`).
* `VerifyToken` and `DeleteToken` are two steps, so overlapping handlers can post twice with one token
  (`OverlapAnswersTwice`): exactly when two handlers have posted with it or are on their way to
  (`AnsweredTwiceExactly`).
* `DeleteToken` goes by task. It deletes whatever token is stored, also a newer one than was verified, which then
  nobody can ever use (`DeletionSpendsTheStored`); that happens too (`NewerTokenIsDeleted`).
* Once a token was used and its handler failed, the sandbox's remaining tries are in vain (`FailedAnswerIsFinal`),
  for instance after a comment that could not be posted (`FailedAnswerIsReachable`).
* The acceptance latch of the sandbox server is a load followed by a store (`OverlapStartsTwo`): every valid request
  that loads before the first store starts a run (`RunsAreTheEarlyRequests`).
* A token that begins or ends with a star, or contains `***`, can survive sanitizing (`SanitizingIsExact`).
* CONTEXT.md says that a failed sandbox creation makes the task Failed and is retried up to the maximum. The code
  keeps the task Started and tries again without limit, using no retry (`FailuresHaveNoLimit`); a task fails only
  while Running (`OnlyRunningTasksFail`), and only then a retry is used.

## Model

| member | source | states |
|---|---|---|
| Lifecycle.RunsRefineAtomicMachine | pkg/orchestrator/controller.go:69-220 | in every run of all agents, the sequence of distinct stored objects is a path of the atomic machine, ending at the current object, with one entry per counted change |
| Lifecycle.BoundedChanges | pkg/orchestrator/controller.go:83-220 | a task undergoes at most 4 * maxRetries + 7 changes of content over any run |
| Lifecycle.StepLowersMeasure | pkg/orchestrator/controller.go:83-220 | each change of content strictly lowers 4 * (maxRetries - retries) + stage, which never goes below 0 |
| Lifecycle.CompletedIsAbsorbing | pkg/orchestrator/controller.go:173-187 | after any further steps a Completed task is unchanged or deleted, and a deleted one stays deleted whatever late write arrives |
| Lifecycle.StatusShape | pkg/orchestrator/controller.go:189-215 | retries stay within 0..maxRetries; runs so far equal retries when Started and retries + 1 when Running or Failed; no names before Running, all three when Running, all or none afterwards |
| Lifecycle.NamesBelongTogether | pkg/orchestrator/controller.go:315-320 | the three names a task stores are those of one sandbox, made for this task, that accepted it |
| Lifecycle.RetriesNeverFall | pkg/orchestrator/controller.go:205-211 | retries rise by at most one a step, and only from Failed with cleared names to Started |
| Lifecycle.TeardownSafety | pkg/orchestrator/controller.go:173-203 | when the loop is about to close a claim, the stored task is Failed or Completed at that moment and still names exactly that sandbox |
| Lifecycle.RunningKeepsItsSandbox | pkg/orchestrator/controller.go:119-122 | a task stored as Running names a live claim, and no step of any agent takes it away |
| Lifecycle.SingleSubmitter | pkg/orchestrator/controller.go:105-117 | an entry of activeTasks exists exactly while a goroutine is live or about to be spawned; no entry is overwritten, no second goroutine is started, and a goroutine removes its own entry |
| Lifecycle.SuccessMeansCompleted | pkg/webhook/listener.go:354-379 | a callback answered with 200 was posted successfully, and the task is Completed or deleted |
| Lifecycle.ExitedPodMeansCompleted | pkg/sandbox/server.go:259-267 | a runner makes at most five tries; one that left with 0 had a callback answered with 200 whose comment was posted, and the task is Completed or deleted |
| Lifecycle.ExitZeroBranchNeverCommits | pkg/orchestrator/controller.go:146-163 | with faithful sandboxes the loop's write of Completed after a successful pod never takes effect: the task was completed before |
| Lifecycle.StepKeepsGood | pkg/orchestrator/controller.go:395-413 | every step of every agent keeps the invariant of the stored object, all stale copies, the registry, the claims and the tokens |
| Preservation.CommitShape | pkg/orchestrator/controller.go:395-413 | a version-checked write of a planned edge either leaves everything alone or moves the object by that one edge and one version |
| Preservation.EdgeKeepsStatus | pkg/orchestrator/controller.go:83-220 | every edge keeps the status well formed and strictly lowers the measure |
| Preservation.LoopKeepsInv | pkg/orchestrator/controller.go:69-220 | every step of the reconcile loop, on however stale a copy, keeps the invariant |
| Preservation.SubKeepsInv | pkg/orchestrator/controller.go:279-388 | every step of a submission goroutine keeps the invariant |
| Preservation.CallbackKeepsInv | pkg/webhook/listener.go:296-380 | every step of a callback handler keeps the invariant |
| ClaimLedger.LedgerIsExact | pkg/orchestrator/controller.go:346-388 | every claim ever created is in exactly one account: deleted, recorded, with the goroutine, or orphaned by exactly one of four causes; a deleted claim is still named only by a Failed or Completed task; repaired, a refused claim is deleted, with the goroutine, or left by a failed delete |
| ClaimLedger.OrphansAreExact | pkg/orchestrator/controller.go:346-388 | a live claim is neither recorded nor held if and only if it is in one of the four sets of orphaning events |
| ClaimLedger.RepairedErrorsLeaveFailedDeletes | pkg/orchestrator/controller.go:352-385 | with the shadowed error repaired, a claim whose task was refused and that is neither deleted nor with the goroutine is there because its delete failed |
| ClaimLedger.OrphansStay | pkg/orchestrator/controller.go:279-388 | a claim orphaned by any of the four causes is live, and an orphan, in every continuation |
| ClaimLedger.NothingIsLeftBehind | pkg/orchestrator/controller.go:173-187 | once the task is deleted and no goroutine is left, the live claims are exactly the orphans; none, if none of the four events happened |
| ClaimLedger.RecordedIsNeverForgotten | pkg/orchestrator/controller.go:173-203 | a stored claim name is cleared, or its task deleted, only after that claim is gone |
| RunningWrites.RecordedIffCurrent | pkg/orchestrator/controller.go:315-323 | before either attempt of the Running write, some continuation records the claim if and only if it is recorded already or the version read is still stored |
| RunningWrites.StaleWriteOrphans | pkg/orchestrator/controller.go:315-323 | if the task was moved on before the Running write and the claim is unrecorded, in every continuation it is live and recorded nowhere, and an orphan once the attempts are over |
| RunningWrites.CallbackOvertakesRunningWrite | pkg/webhook/listener.go:361-377 | for every valid spec a run in which the callback with the issued token completes the task before the Running write, which then fails twice and orphans the claim |
| ClaimLedger.SubmitErrorPath | pkg/orchestrator/controller.go:352-385 | after a failed SubmitTask the claim is live, and its deletion is asked for next if and only if the error path is repaired |
| ClaimLedger.SubmitErrorLeaksForever | pkg/orchestrator/controller.go:380-385 | as written, a claim whose task could not be submitted is live in every later state |
| ClaimLedger.LeakIsReachable | pkg/orchestrator/controller.go:380-385 | for every valid spec there is a run that ends in such a leak |
| AnswerOnce.OneAnswerPerToken | pkg/webhook/listener.go:331-359 | only issued tokens are answered, and a token never verified by one handler between another's verification and deletion of it is answered at most once |
| AnswerOnce.NoMoreAnswersThanTokens | pkg/webhook/listener.go:331-359 | without such overlaps there are at most as many answers as tokens issued |
| AnswerOnce.AnsweredTwiceExactly | pkg/webhook/listener.go:331-359 | for a token deleted or replaced, some continuation has two handlers posting with it if and only if two handlers have posted with it or stand between its verification and their post |
| AnswerOnce.TwoCanPost | pkg/webhook/listener.go:342-359 | from any world with two such handlers, of whatever token, a continuation answers it twice |
| AnswerOnce.DeletionSpendsTheStored | pkg/webhook/listener.go:342-347 | a deletion that takes effect spends exactly the token stored for the request's task then, whichever was verified, and leaves all other tasks' tokens; a spent one that nobody had verified is never answered by anyone |
| AnswerOnce.NewerTokenIsDeleted | pkg/webhook/listener.go:342-347 | a run in which the handler of an older token deletes the newest one, which nobody had verified |
| AnswerOnce.OnlyNewestIsAccepted | pkg/webhook/listener.go:331-340 | only the most recently issued token is accepted, and only while nobody used it |
| AnswerOnce.SpentForever | pkg/webhook/listener.go:342-347 | a deleted or replaced token is never accepted again in any continuation; all posts with it come from handlers that had verified it by then |
| AnswerOnce.PostedIsSpent | pkg/webhook/listener.go:342-359 | whoever posted had verified the token, and that token is spent |
| AnswerOnce.FailedAnswerIsFinal | pkg/webhook/listener.go:342-377 | once the verifiers of a spent token have all failed, no later callback with that token can succeed |
| AnswerOnce.FailedAnswerIsReachable | pkg/webhook/listener.go:354-359 | a run that gets there: the token is used up and the comment cannot be posted |
| AnswerOnce.RepliesAreFinal | pkg/webhook/listener.go:379 | a handler that has replied takes no further step |
| AnswerOnce.OverlapAnswersTwice | pkg/webhook/listener.go:332-343 | a run with one token issued, two overlapping handlers, and a continuation in which both post with it |
| Resubmitting.FailuresHaveNoLimit | pkg/orchestrator/controller.go:289-343 | for every valid spec and every n a run with at least n failed submissions after which the task is still Started with retries 0 and about to be submitted again |
| Resubmitting.OnlyRunningTasksFail | pkg/orchestrator/controller.go:119-171 | a step that makes a task Failed is one of the reconcile loop on a Running task and changes nothing else in the status |
| Answering.StepKeepsAnswers | pkg/webhook/store.go:29-51 | every step keeps the invariant of tokens issued, verified, used and posted |
| Addressing.StepKeepsAddressed | pkg/webhook/listener.go:296-380 | every step keeps every copy, request and name that an agent holds about the one task of its world |
| Addressing.OthersTokensStay | pkg/webhook/store.go:29-51 | no step of a task's agents stores or deletes a token of another task |
| Calls.CallsConcernTheTask | pkg/webhook/listener.go:296-469 | in every reachable world the next call of every agent is about this task wherever it names one |
| Fleet.ClaimsBelongToOneTask | pkg/orchestrator/controller.go:429-474 | over all tasks: a claim is named by at most one task, the loop works on at most one task, and neither the loop nor a goroutine closes a claim made for another task |
| Fleet.TokensBelongToOneTask | pkg/webhook/store.go:29-51 | in the whole system a step of one task leaves the stored token of every other task as it is |
| Fleet.FleetRunKeepsInv | pkg/orchestrator/controller.go:429-474 | in every run of the whole system each task by itself is a reachable world, all see one and the same token store, and tasks share no claims |
| Calls.LogsAreRuns | pkg/orchestrator/controller.go:69-388 | every log that keeps to an agent's automaton, with answers the shared state allows and any steps of the others in between, is the agent's log in a run of the model that ends where the automaton does |
| Calls.ThreadsAreCovered | pkg/webhook/listener.go:296-469 | a valid thread of any of the four agents stands, at every moment, in a reachable world at its own program counter |
| Calls.CodeClosesSafely | pkg/orchestrator/controller.go:173-203 | when the code of Reconcile is about to close a claim, the stored task is Failed or Completed and names that claim |
| Tracing.FollowsExactly | pkg/orchestrator/controller.go:69-388 | for all four agents: a log keeps to the automaton if and only if every call in it is the one, argument by argument, that the history before it calls for |
| Tracing.StandsWhereCalled | pkg/webhook/listener.go:296-469 | after any log an automaton's next call is the only one that the history calls for; at its end there is none, and its reply is the one the history calls for |
| Tracing.ThreadsCallRight | pkg/orchestrator/controller.go:69-388 | every call of a valid thread is the one that its history calls for |
| Protocol.VerdictIsExact | pkg/orchestrator/controller.go:136-170 | a pod completes its task exactly if its first terminated container exited with 0 or, none terminated, it succeeded; it fails it exactly in the opposite cases |
| Protocol.WarmPoolNames | pkg/sandbox/client.go:96-98 | the suffix -template is replaced by -warmpool when it is there, else -warmpool is appended |
| Orchestration.Orchestrator.Reconcile | pkg/orchestrator/controller.go:69-220 | one synchronization step makes exactly the calls that its history calls for and ends when there is none, reports an error exactly if its last call failed, and adds an entry only for a task that had none |
| Orchestration.Orchestrator.Admit | pkg/orchestrator/controller.go:92-103 | the Pending branch follows the automaton |
| Orchestration.Orchestrator.EnsureSubmission | pkg/orchestrator/controller.go:105-117 | a goroutine is spawned exactly if the task had no entry, with a new context, even if other goroutines end between the two critical sections |
| Orchestration.Orchestrator.CheckPod | pkg/orchestrator/controller.go:119-171 | the pod is asked for by the stored name; then Completed is written exactly if the pod succeeded, Failed exactly if it failed or is gone, by its first terminated container or else its phase, and nothing otherwise |
| Orchestration.Orchestrator.ActOnPod | pkg/orchestrator/controller.go:136-170 | what is written for a pod is decided by its first terminated container or, with none, by its phase |
| Orchestration.Orchestrator.Finish | pkg/orchestrator/controller.go:173-187 | the named sandbox is closed, if there is one, and the task is deleted only after that succeeded |
| Orchestration.Orchestrator.CleanUpAndRetry | pkg/orchestrator/controller.go:189-216 | the Failed branch follows the automaton: clear only after the sandbox is closed, then retry |
| Orchestration.UpdateTaskStatus | pkg/orchestrator/controller.go:395-413 | the status endpoint first; the whole object second, exactly if the first write reported an error; an answer that cannot be parsed is an error; on success the task variable holds the server's answer, otherwise it is unchanged |
| Orchestration.ValidateTask | pkg/orchestrator/controller.go:222-248 | the list of missing fields is exact, and empty exactly for a valid spec |
| Orchestration.FindTerminated | pkg/orchestrator/controller.go:136-144 | the loop finds the first terminated container |
| Orchestration.Orchestrator.RunSandboxSubmission | pkg/orchestrator/controller.go:279-344 | the goroutine makes exactly the calls that its history calls for, to the end; as many pauses as it took form a schedule; on every way out its own context is cancelled and its entry, and no other, removed, whatever others did to the registry meanwhile |
| Orchestration.Orchestrator.SubmissionLoop | pkg/orchestrator/controller.go:289-343 | the loop follows the automaton and takes one pause a failure, those of the doubling, capped, jittered backoff |
| Orchestration.Orchestrator.Attempt | pkg/orchestrator/controller.go:292-324 | one pass follows the automaton |
| Orchestration.Orchestrator.SubmitAndRecord | pkg/orchestrator/controller.go:314-323 | a submitted task is written as Running and the goroutine goes to its removal; a failed submission goes to the pause |
| Orchestration.Orchestrator.ChoosePause | pkg/orchestrator/controller.go:329-333 | the pause is one that the current base allows |
| Orchestration.Orchestrator.TrySubmitToSandbox | pkg/orchestrator/controller.go:346-388 | a task is submitted at most once, to the sandbox that was made for it, field by field, with the tokens generated just before; success hands over that sandbox; failure closes what it created, except when the sandbox refused the task (the error path as written) |
| Orchestration.Orchestrator.Deliver | pkg/orchestrator/controller.go:362-385 | all ten fields of the request are those of the task and of the tokens generated for it; a failed token request leads to the cleanup and submits nothing, a failed submission does not lead to it |
| Sandboxes.CreateSandbox | pkg/sandbox/client.go:88-192 | exactly one claim is asked for, from the template's warm pool; success creates one claim, closes none, and returns the handle that the answers describe; failure asks to delete exactly the claims it created |
| Sandboxes.AwaitSandbox | pkg/sandbox/client.go:123-191 | from the claim to a ready sandbox, or to the claim's deletion |
| Sandboxes.AwaitName | pkg/sandbox/client.go:123-142 | polls until the claim names its sandbox; an error or cancellation asks for the claim's deletion |
| Sandboxes.AwaitReady | pkg/sandbox/client.go:144-174 | polls until the sandbox is ready; the pod is named by its annotation or else like the sandbox |
| Sandboxes.LookAtSandbox | pkg/sandbox/client.go:146-156 | one round looks at the context and then at the named sandbox; a cancelled context or an error asks for the claim's deletion |
| Sandboxes.AnyReady | pkg/sandbox/client.go:157-163 | the loop finds a true Ready condition exactly if there is one |
| Sandboxes.Close | pkg/sandbox/client.go:236-248 | closing succeeds exactly if the claim was deleted or is already gone; without a name nothing is asked |
| Backoff.BaseIsCappedPower | pkg/orchestrator/controller.go:289-342 | the n-th base is min(2^n, 10) seconds and at least one second |
| Backoff.NoOverflow | pkg/orchestrator/controller.go:329-339 | no intermediate value leaves the signed 64-bit range |
| Backoff.PauseRange | pkg/orchestrator/controller.go:329-333 | the possible pauses are exactly those from the base up to below twice the base, cut off at ten seconds |
| Backoff.PausesNeverShrink | pkg/orchestrator/controller.go:329-342 | pauses never shrink, whatever the jitter |
| Backoff.FifthPauseIsMaximal | pkg/orchestrator/controller.go:329-342 | from the fifth failure on every pause is ten seconds |
| Backoff.TotalPause | pkg/orchestrator/controller.go:329-342 | after n >= 4 failures the total pause is at least 10n-25 and less than 10n-16 seconds |
| Listening.HandleCallback | pkg/webhook/listener.go:296-380 | the calls and the status code are those the history calls for; 200 comes only after this task was read, this token verified and deleted for this task, the response posted on its own issue, and Completed written and committed |
| Listening.Answer | pkg/webhook/listener.go:342-379 | on 200 the token of the request's task was deleted, the response posted on the task's repository and issue, and the task written as Completed, in that order |
| Listening.PresentedTokenIsExact | pkg/webhook/listener.go:316-324 | the token is what follows Bearer in the header, else the whole header, else the field of the body |
| Listening.HandleGenerateTokens | pkg/webhook/listener.go:423-468 | the calls, the status code and the tokens are those the history calls for; on 200 the GitHub token was minted for the task's repository and the callback token drawn and stored for the task; otherwise there are none |
| Listening.FormatPrompt | pkg/webhook/listener.go:283-294 | the prompt is title, body and one line per comment, in order |
| Listening.PromptGrows | pkg/webhook/listener.go:283-294 | title and body come first; each further comment adds one line with its author and text |
| Listening.DecimalIsExact | pkg/webhook/listener.go:164-196 | a user's number is written in decimal digits that stand for it, without leading zeros |
| Listening.BuildTask | pkg/webhook/listener.go:138-250 | a task is built exactly for a comment that mentions the agent, in whatever case, or for the right label on an issue, when the client returns all comments; it says what the event said |
| Listening.FindsMention | pkg/webhook/listener.go:143-147 | searching the lower-case text for @ and the lower-case name succeeds exactly if somewhere the name stands after an @, letter by letter in whatever case |
| Listening.BuiltTasksPass | pkg/webhook/listener.go:237-246 | a built task passes validation exactly if repository and issue are named, and its request then passes the sandbox's check |
| Listening.ValidatedTasksAreRefusedExactly | pkg/orchestrator/controller.go:367-378 | a validated task is refused by the sandbox exactly if it is of type pr without owner or email |
| TokenStores.RedisRefinesMap | pkg/webhook/store.go:75-96 | after any operations Redis accepts a token exactly if the map does and it was stored less than 24 hours ago |
| TokenStores.StoresAgree | pkg/webhook/store.go:79-104 | both stores hold the same tokens, and each Redis entry expires 24 hours after it was stored |
| TokenStores.InMemoryTokenStore.StoreToken | pkg/webhook/store.go:29-34 | stores this token for this task and changes nothing else |
| TokenStores.InMemoryTokenStore.VerifyToken | pkg/webhook/store.go:36-44 | accepts exactly the stored token |
| TokenStores.InMemoryTokenStore.DeleteToken | pkg/webhook/store.go:46-51 | afterwards no token is accepted for the task; other tasks are unchanged |
| TokenStores.RedisTokenStore.StoreToken | pkg/webhook/store.go:79-85 | success means stored for 24 hours; an error leaves either outcome |
| TokenStores.RedisTokenStore.VerifyToken | pkg/webhook/store.go:87-96 | accepts exactly the unexpired stored token, and nothing on an error |
| TokenStores.RedisTokenStore.DeleteToken | pkg/webhook/store.go:98-104 | success means no token is accepted for the task; an error leaves either outcome |
| Sanitizing.ReplaceIsSplitJoin | pkg/sandbox/server.go:74-84 | replacing is splitting by the token and joining by the mask, and joining by the token restores the message |
| Sanitizing.SanitizedMessage | pkg/sandbox/server.go:74-84 | without an error or a token nothing changes; otherwise the pieces between the tokens are joined by three stars |
| Sanitizing.PiecesAreFree | pkg/sandbox/server.go:82 | no piece between occurrences contains the token |
| Sanitizing.TokenFreeIsUnchanged | pkg/sandbox/server.go:82 | a message without the token is left alone |
| Sanitizing.SanitizedIsFree | pkg/sandbox/server.go:74-84 | a safe token is gone from every sanitized message |
| Sanitizing.StarFreeIsSafe | pkg/sandbox/server.go:82 | every token without a star is safe |
| Sanitizing.SanitizingIsExact | pkg/sandbox/server.go:74-84 | sanitizing removes the token from all messages if and only if it has no star at either end and no mask inside |
| Running.Run | pkg/sandbox/server.go:86-268 | no error exactly if one of at most five reports was accepted; reports are made only after the whole plan, and say the agent's output without its outer white space or, for a pull request, its number; an earlier failure stops at a prefix of the plan, with the agent's exit code if it was the one to fail; tries and exit are those of the runner's automaton; errors of git and of the agent hide a safe token |
| Running.Work | pkg/sandbox/server.go:86-257 | everything up to the report: the whole plan and what to report, or a prefix of the plan and the exit code |
| Running.TrimIsExact | pkg/sandbox/server.go:197 | trimming takes off the outer white space, all of it and nothing else |
| Running.TrimIsUnique | pkg/sandbox/server.go:197 | a text has only one trimmed form |
| Running.AnswerPlan | pkg/sandbox/server.go:86-197 | without a pull request the plan is workspace, clone with the GitHub token, and the agent |
| Running.PullRequestPlan | pkg/sandbox/server.go:86-253 | for a pull request one branch named after the task is made, committed to in the owner's name, pushed, and offered for the task's issue |
| Running.AgentArgsAreExact | pkg/sandbox/server.go:168-181 | how each agent is told its prompt and its model |
| Running.RunProcess | pkg/sandbox/http.go:120-131 | the process exits with 0 exactly if a report was accepted, and after any report with the code the runner's automaton says |
| Running.ReportResult | pkg/sandbox/server.go:259-265 | between one and five tries, all with the same token and response, stopping at the first that is accepted and otherwise after five or when the retry policy gives up |
| Running.Prepare | pkg/sandbox/server.go:89-148 | workspace, clone, attribution and branch, in order up to the first failure; git errors hide a safe token |
| Running.Publish | pkg/sandbox/server.go:199-257 | commit, push and pull request, in order up to the first failure; no change is a failure; the response names the pull request that was created |
| Running.Push | pkg/sandbox/server.go:199-221 | status, add, commit and push in order; if the status is nothing but white space, that is an error and nothing more is done |
| Running.RunGit | pkg/sandbox/server.go:111-132 | one git command, with a safe token hidden from its error |
| TaskServer.MissingFields | pkg/sandbox/http.go:64-93 | lists exactly the empty required fields, each by its own name and in order; nothing is missing exactly if the request is complete; owner and email count only for type pr |
| TaskServer.Server.TaskHandler | pkg/sandbox/http.go:41-138 | 200 exactly for a valid POST before any was accepted; only that sets the latch and starts a run |
| TaskServer.Server.ServeAll | pkg/sandbox/http.go:41-138 | of any requests in turn exactly the first valid one starts a run, and all later ones get 405 |
| TaskServer.RunsAreTheEarlyRequests | pkg/sandbox/http.go:42-118 | under any schedule of overlapping requests, a request starts a run if and only if it is valid and its first step comes before the first store; some run starts exactly if some request is valid |
| TaskServer.OverlapStartsTwo | pkg/sandbox/http.go:42-118 | two valid requests that overlap start two runs |
| Signatures.AcceptanceIsExact | pkg/webhook/listener.go:390-406 | a header is accepted exactly if it is sha256= followed by a spelling of the payload's HMAC, letters in either case |
| Signatures.DecodeIsExact | pkg/webhook/listener.go:396-399 | decoding yields some bytes exactly for the spellings of their encoding |
| Signatures.EncodeRoundTrip | pkg/webhook/listener.go:382-388 | decoding undoes encoding, for all byte strings |
| Signatures.EncodingIsExact | pkg/webhook/listener.go:382-388 | every byte is written as two digits, the high half first |
| Signatures.CaseDoesNotMatter | pkg/webhook/listener.go:396-399 | the letters A to F stand for a to f, and nothing else is changed |
| Resources.TaskRoundTrip | pkg/apis/cloudagent/v1alpha1/types.go:48-74 | a task, its resourceVersion and the rest of its metadata included, survives the way to a document and back |
| Resources.DocumentRoundTrip | pkg/apis/cloudagent/v1alpha1/types.go:48-74 | a document survives being read and written exactly if it has the right type, spells out no zero value and has no field outside spec, status and metadata |
| Resources.LeafRoundTrip | pkg/apis/cloudagent/v1alpha1/types.go:48-74 | every non-zero value of spec, status and metadata is kept, every other field dropped, and the type is always set |
| Resources.FieldsAreRead | pkg/apis/cloudagent/v1alpha1/types.go:48-57 | every field of a task that was read comes from the field of its own name |
| Resources.StatesAreSpelled | pkg/apis/cloudagent/v1alpha1/types.go:10-19 | the spelling of the states |

## Left out

- Liveness: watch delivery, scheduling, and that a Started task ever gets a submitter (a Started event can be
  skipped while the old goroutine has not removed its entry yet).
- The watch loop `Start` itself: the model lets a reconciliation begin for any task whenever the loop is idle,
  which covers every order of events, and only one at a time.
- Endless loops: a context is cancelled after some finite number of polls, for every such number, so that a
  goroutine's or a poll's unbounded run appears through all its finite beginnings.
- Writers other than the agents shown, and claims deleted by anyone but them.
- Kubernetes, GitHub, Redis, HTTP and gin themselves: calls with unpredictable answers.
- `generateRandomHex` falls back to a constant when no randomness is available; tokens are taken to be new here.
- Whether `SubmitTask` reached the sandbox although an error was reported: callbacks may arrive from anywhere anyway.
- Durations inside the interleaving model; the pauses are treated in Backoff and in the goroutine's own code.
- Events, logging, basic authentication, JSON and YAML parsing, comment posts that refuse a request, the files that the
  agent's models are read from, and the remote that a test may put in place of GitHub.
- Names of deleted tasks are not used again.
- Which comments the client fetches, and how it finds out that there are more than 30 (a flag in its answer).
- Lower case is any map of characters (a parameter); none that lengthens a text.
- Values of the metadata are opaque texts, and the resourceVersion is a number; a document is given by its leaves, so
  that an empty object and an absent one are the same.
- Running.RunProcess: a coding agent that fails with an exit code is taken to fail with a non-zero one, as a process
  does; otherwise the sandbox's exit code would be 0 without a report.
- pkg/github, the command mains, manifests and scripts.
