# Agent platform: verified models of its governed core

A Dafny 4.11 model of the parts of the platform that carry state or arithmetic, with proofs of what
they promise over every input, run or interleaving.

| file | what it models |
|---|---|
| `Prelude.dfy` | options, results, counting |
| `Limits.dfy` | the keyed token bucket and the two-level limiter |
| `LimiterHistory.dfy` | both levels against the history of their calls, in configured terms |
| `Ordering.dfy` | ORDER BY over text columns (byte order) |
| `Store.dfy` | the repository the gateway uses: server registry, approvals, audit log |
| `RegistryAnswers.dfy` | what the registry and approval tables mean, column by column |
| `Policy.dfy` | the gateway's policy engine: `Register`, `ListTools`, `Call` |
| `GatewayRuns.dfy` | whole runs of the gateway, told from the history of steps |
| `GatewayTotals.dfy` | throughput of the buckets and conservation of the audit log over runs |
| `GatewayAnswers.dfy` | what a caller gets back and the audit log says; admission and throughput over runs, in configured terms |
| `TaskState.dfy` | the manager's per-task state |
| `TaskProtocol.dfy` | one task as a concurrent protocol of engine, drain and approvers |
| `TaskWaits.dfy` | what a task shows of its engine's wait, over whole schedules |
| `TaskTrace.dfy` | a task told from its schedule alone |
| `Assembly.dfy`, `AssemblyTheorems.dfy` | budgeted context assembly |
| `AssemblyText.dfy` | the text of an assembly, byte by byte and part by part |
| `Memory.dfy` | the scoped fact table, its search, forgets and retention sweep |
| `MemoryAnswers.dfy` | what searches, writes and removals mean, row by row |
| `Builder.dfy` | per-turn context building on top of memory and assembly |
| `BuilderAnswers.dfy` | what a context contains, from the turn, the facts and the session |
| `Slack.dfy` | the Slack polling loop, and its verdicts against the task protocol |
| `SlackTrace.dfy` | what is posted about a task, message by message |

How to read it. What the source changes in place is a class whose methods are proved equal to a
function of the old state (`RateLimiter.Allow` and `AllowKey`, `Gateway.Call` and `Called`,
`MemoryStore.SearchFacts` and `Search`); the theorems are about those functions. Runs are sequences of
steps or actions of any kind in any order. Clock readings, generated ids, database failures, the
downstream reply and the answers of polled services are arguments, so the theorems hold for all of them.

Main results:

- A one-cell capped bucket gives exactly the answers of a limiter that remembers every call and applies
  the window rule, on any clock (`BucketIsWindow`), for each key separately (`KeyedProjection`), in calls a
  minute and burst (`ConfiguredBucketAdmitsIff`); the two-level limiter is two such windows
  (`LimiterIsTwoWindows`), over whole gateway runs (`AdmittedIffWindowsHaveRoom`).
- A call reaches downstream if and only if it is admitted, resolved, authorized and, for impact "high",
  covered by a grant that stands in the history of the run (`CallRunsIffApprovedInHistory`); what it answers
  and logs on every path follows from the request, the tables and the reply (`CallAnswersAndLogs`); a server
  runs nothing unless its promotion stands and no kill does (`OnlyLiveServersRun`).
- Downstream calls never exceed burst + rate * clock advance over any stretch (`ThroughputBound`); audit
  rows account for calls, registrations, invocations and approvals (`AuditConservation`), whatever fails
  once the lost rows are counted (`AuditConservationUnderFaults`).
- In every interleaving the manager holds a prefix of the emitted stream, terminates with all of it, and
  every accepted decision is buffered, discarded for another id, or the verdict of exactly one Approve
  (`ManagerSeesTheStream`, `StatusAutomaton`, `DecisionsAreConserved`, `AnswersComeFromDecisions`,
  `ReturnedTaskTerminates`); a task shows that its engine waits if and only if no reply came after the
  last event (`WaitShowsIffNoReplySince`). All of it is what the schedule's actions say
  (`StateFollowsSchedule`), through to the client (`TerminalSnapshotTellsTheRun`) and to Slack
  (`ApprovalPostedIffShown`, `EndingIsWhatTheEngineReturned`).
- Assembly keeps priority and budget for any counter, spends the budget exactly when it trims, and grows
  with the budget (`AssemblyIsCorrect`, `TrimmingSpendsTheBudget`, `LargerBudgetIncludesMore`); its text
  is within the budget exactly if the separators fit (`TextWithinBudgetIffSeparatorsFit`); a context holds the
  seven texts of its turn in order of relevance, the last cut first (`ContextIsTheTexts`).
- A search returns the newest rows asked for, and a limit leaves out only older ones
  (`SearchReturnsWhatIsAskedFor`, `SearchIsNewestFirst`, `LimitLeavesOutTheOldest`).
- Facts of other scopes and past retention sweeps are invisible to a scope's searches and contexts
  (`ScopesDoNotInterfere`, `SweepsAreInvisibleInRuns`, `BuildSeesOnlyItsScope`).

Where code and documentation disagree, the model follows the code:

- `gateway/internal/limits/limits.go:82-83` says a global denial does not burn a committee token. It does:
  `DenialSparesCommitteeIffItHadNone` gives the exact condition, `GlobalDenialBurnsCommitteeToken` a case.
- `runtime/agentruntime.go:79` says resolving an approval of a finished task returns an error. It returns
  nil exactly when the decision buffer has room: `LateApprovalAcceptedIff`, `LateApprovalHappens`; over the
  rest of the run at most one is accepted that way and none is acted on: `AtMostOneLateApproval`.
- `services/session-memory/internal/assembly/assemble.go:1-4` says assembly stops before the window is
  full. Separators are not counted, so the text can cost more than the budget: `TextWithinBudgetIff` and
  `TextWithinBudgetIffSeparatorsFit` say exactly when it does not, `JoinOverhead` bounds the excess,
  `JoinOverheadIsReached` reaches the bound for every number of segments, `TextCanExceedBudget` is a case.
- The status "awaiting_approval" (`runtime/internal/server/server.go:41`) does not follow the engine's
  wait. Any reply clears it: one to another approval (`ReplyToAnotherIdHidesTheWait`), or a late one to an
  approval already served (`LateReplyHidesTheNextWait`, a run). `WaitShowsIffNoReplySince` is the exact
  condition.
- An approval request need not come from an Approve call: the Emit hook passes any event on
  (`runtime/runtime.go:78-83`), so an engine can stream one itself. `PendingWasRequested` covers both,
  `PendingWasAskedWith` holds of engines that emit none, `EmittedRequestShows` is a run that does.
- An audit row "ok" is also what a registration leaves, so execution rows number the downstream calls plus
  the registrations, not the downstream calls alone: `AuditConservation`.

## Model

| member | source | states |
|---|---|---|
| `Limits.RateLimiter.constructor` | gateway/internal/limits/limits.go:27-37 | a fresh limiter has no buckets, perMinute/60 tokens a second, and a burst of at least one |
| `Limits.RateLimiter.Allow` | gateway/internal/limits/limits.go:40-62 | the whole new bucket map and the answer, as a function of the old map, the key and the clock reading |
| `Limits.BucketIsWindow` | gateway/internal/limits/limits.go:39-62 | on any clock, every answer of a bucket equals that of a limiter that keeps the full history and admits a call iff every earlier admitted call's window has room; `last` is the clock's high-water mark; tokens stay in [0, burst] |
| `Limits.AdmittedIffWindowHasRoom` | gateway/internal/limits/limits.go:40-62 | on a clock that never steps back, call n is admitted iff for every earlier admitted call i the admitted calls from i on plus one number at most burst + rate*(t_n - t_i) |
| `Limits.SpacedCallsAreNeverDenied` | gateway/internal/limits/limits.go:26-62 | a key whose calls are 60/perMinute seconds apart is never denied |
| `Limits.KeyedProjection` | gateway/internal/limits/limits.go:16-24 | for any interleaving of keys, one key's answers and bucket are those of a private bucket fed only its own readings, hence the window rule on them |
| `Limits.StretchIsPaid` | gateway/internal/limits/limits.go:49-62 | over any stretch, calls admitted plus tokens left are covered by tokens held plus credit earned, and the marks' difference is the time elapsed |
| `LimiterHistory.ConfiguredBucketAdmitsIff` | gateway/internal/limits/limits.go:27-62 | in the constructor's integers: on a clock that never steps back, call n is admitted iff for every earlier admitted call i, 60 * (calls admitted from i on, plus one) <= 60 * max(1, burst) + perMinute * (t_n - t_i) |
| `LimiterHistory.HalfASecondIsTooSoon` | gateway/internal/limits/limits.go:27-62 | sixty calls a minute with a burst of one deny a second call after half a second |
| `LimiterHistory.LimiterIsTwoWindows` | gateway/internal/limits/limits.go:64-95 | on any clocks, a call is admitted iff its committee's window has room, counting that committee's own calls, and the global window has room, counting the calls that reached it; calls without a committee share one |
| `Limits.Limiter.constructor` | gateway/internal/limits/limits.go:71-80 | a non-positive rate disables its dimension |
| `Limits.Limiter.Allow` | gateway/internal/limits/limits.go:84-95 | the whole new state of both buckets and the answer: committee first, then global, an empty name counting as unknown |
| `Limits.DenialSparesCommitteeIffItHadNone` | gateway/internal/limits/limits.go:82-95 | with both levels configured, the committee bucket keeps its tokens iff it had none to give, whatever the global bucket answers |
| `Limits.GlobalDenialBurnsCommitteeToken` | gateway/internal/limits/limits.go:82-95 | a concrete global denial that costs a committee token |
| `Ordering.SortRows` | services/session-memory/store/registry.go:207-243 | lists exactly a set of rows in strictly increasing column order |
| `Ordering.ListingIsUnique` | services/session-memory/store/registry.go:299-306 | the rows and the order determine the list |
| `Store.TextIsInjective` | gateway/internal/policy/gateway.go:145-182 | the texts written to the audit log tell the outcomes apart |
| `Store.InsertToolRows` | services/session-memory/store/registry.go:120-126 | the insert loop, refused as a whole by a repeated name or unknown impact |
| `Store.InsertGrantRows` | services/session-memory/store/registry.go:131-137 | the grant loop, a repeated committee counting once |
| `Store.Repository.RegisterServer` | services/session-memory/store/registry.go:84-143 | all-or-nothing effect on the registry tables under refusal and under database failure before or after commit, and the loaded server |
| `Store.Repository.GetServerByName` | services/session-memory/store/registry.go:158-174 | the server with exactly its tools and committees, each in name order, or not found |
| `Store.Repository.ResolveTool` | services/session-memory/store/registry.go:275-286 | finds a tool iff the tables hold it for that server |
| `Store.Repository.ListVisibleTools` | services/session-memory/store/registry.go:291-322 | lists exactly the rows of the three-table join, sorted by server and tool, or fails; without committees it never fails |
| `Store.Repository.SetServerLifecycle` | services/session-memory/store/registry.go:247-257 | changes the one lifecycle, or nothing when the server or the value is unknown or the database fails |
| `Store.Repository.SetServerEnabled` | services/session-memory/store/registry.go:261-271 | changes the one switch, or nothing when the server is unknown or the database fails |
| `Store.Repository.CreateApproval` | services/session-memory/store/governance.go:43-53 | appends one pending row, an empty session stored as NULL |
| `Store.Repository.DecideApproval` | services/session-memory/store/governance.go:68-82 | overwrites the row's decision whatever its state, or changes nothing when the row or the value is unknown or the database fails |
| `Store.Repository.ListApprovalsBySession` | services/session-memory/store/governance.go:83-87 | the session's rows, newest first |
| `Store.Repository.WriteAudit` | services/session-memory/store/governance.go:128-139 | appends one row with the next id; id 0 and no row on failure |
| `Store.OfSessionMembers` | services/session-memory/store/governance.go:83-87 | a row is listed iff it is in the table with that session; NULL never matches |
| `Store.InsertToolsAddsExactly` | services/session-memory/store/registry.go:120-126 | insertion succeeds iff names are distinct and fresh and impacts known, and adds exactly those rows |
| `Store.RegisteredIffWellFormed` | services/session-memory/store/registry.go:85-126 | registration is accepted iff name and endpoint are given, tool names distinct and impacts known |
| `Store.RegisteredKeepsKeys` | services/session-memory/store/migrations/00002_registry.sql:7-40 | registration keeps the servers' key, every tool's and grant's server, and the lifecycle and impact checks |
| `Store.RegisterThenResolve` | services/session-memory/store/registry.go:81-143 | after registration exactly the given tools and grants hold, other servers are untouched, lifecycle and switch preserved or 'proposed' and enabled |
| `RegistryAnswers.RegisteredRow` | services/session-memory/store/registry.go:84-118 | every column after registering: the input's, the two defaults, and the known server's id, lifecycle and switch or a fresh id, 'proposed' and enabled; no other server changes |
| `RegistryAnswers.SettersChangeOneColumn` | services/session-memory/store/registry.go:247-271 | each setter changes its one column of the one server and nothing else |
| `RegistryAnswers.ListedByServerThenTool` | services/session-memory/store/registry.go:299-306 | discovery lists in byte order of server name, then tool name |
| `RegistryAnswers.ServerListsByName` | services/session-memory/store/registry.go:158-243 | a loaded server has exactly its tools and committees, each in byte order of name |
| `RegistryAnswers.ApprovalsNewestFirst` | services/session-memory/store/governance.go:83-87 | a session's list is its rows of the table from the last position to the first |
| `Ordering.StrLessIsByteOrder` | services/session-memory/store/registry.go:299-306 | the order used is byte order: a proper prefix first, else the smaller byte where two names first differ |
| `Policy.Gateway.constructor` | gateway/internal/policy/gateway.go:96-102 | a new gateway has called nothing downstream |
| `Policy.Gateway.Register` | gateway/internal/policy/gateway.go:106-115 | the whole new state: registry effect and its audit row |
| `Policy.Gateway.ListTools` | gateway/internal/policy/gateway.go:120-122 | lists exactly the join rows for the caller's committees, or the store's error |
| `Policy.Gateway.CheckAuthorized` | gateway/internal/policy/gateway.go:192-204 | true iff approved, enabled and granted to one of the caller's committees |
| `Policy.Gateway.CheckApproval` | gateway/internal/policy/gateway.go:206-220 | true iff the session is not empty and one of its rows for the tool is approved |
| `Policy.Gateway.Call` | gateway/internal/policy/gateway.go:140-188 | the whole new state (limiter, tables, audit, downstream log) and the outcome, every failure path included |
| `Policy.DiscoveryEqualsEnforcement` | gateway/internal/policy/gateway.go:117-122 | in every registry state a tool is listed iff it resolves and its server is authorized, with the same scope and impact, in a strictly sorted list |
| `GatewayRuns.CallEffect` | gateway/internal/policy/gateway.go:133-188 | what one call may change: never the registry; approvals only by the row it opens; downstream exactly when it may proceed |
| `GatewayRuns.GatedRowFollowsDecisions` | services/session-memory/store/governance.go:43-82 | an opened approval keeps session, tool and redacted arguments for the rest of the run and carries the latest decision |
| `GatewayRuns.RowHasOrigin` | gateway/internal/policy/gateway.go:168-174 | every approval row was opened by a gated call |
| `GatewayRuns.ApprovalTableIsHistory` | gateway/internal/policy/gateway.go:206-220 | the table counts (session, tool) as approved iff the session is not empty and a gated call for it has a grant no later decision replaced |
| `GatewayRuns.CallRunsIffApprovedInHistory` | gateway/internal/policy/gateway.go:133-188 | the exact condition, over the run's history, under which a call reaches downstream, and with what arguments |
| `GatewayRuns.ApprovedIsHistory` | services/session-memory/store/registry.go:245-257 | a server is approved iff its promotion stands; re-registration does not matter |
| `GatewayRuns.EnabledIsHistory` | services/session-memory/store/registry.go:259-271 | a server is enabled iff no kill stands |
| `GatewayRuns.OnlyLiveServersRun` | gateway/internal/policy/gateway.go:190-204 | nothing runs on a server that is unpromoted, demoted or killed |
| `GatewayRuns.TablesAlwaysOk` | services/session-memory/store/migrations/00002_registry.sql:7-40 | the registry's keys, foreign keys and checks hold in every run |
| `GatewayRuns.OnlyListedToolsRun` | gateway/internal/policy/gateway.go:117-122 | whatever runs downstream is something its caller could have listed at that moment |
| `GatewayTotals.RunPays` | gateway/internal/policy/gateway.go:144-178 | each downstream call of a run was paid for by the bucket when it was made |
| `GatewayTotals.ThroughputBound` | gateway/internal/limits/limits.go:64-95 | over any stretch of any run the downstream calls a bucket pays for number at most burst + rate * advance of its mark, even with backward clocks |
| `GatewayTotals.GlobalChargesAll` | gateway/internal/limits/limits.go:89-93 | the global bucket is charged for every downstream call, so its bound is on their total number |
| `GatewayTotals.ConfiguredLimiterIsSane` | gateway/internal/limits/limits.go:71-80 | every limiter the constructor can build has a non-negative rate and a burst of at least one |
| `GatewayTotals.CallAuditsItsFate` | gateway/internal/policy/gateway.go:144-187 | a fault-free call writes exactly one row, whose kind says whether it ran, was gated or refused |
| `GatewayTotals.AuditConservation` | gateway/internal/policy/gateway.go:106-188 | in fault-free runs rows = calls + accepted registrations, executed rows = downstream calls + registrations, gated rows = approvals |
| `GatewayTotals.AuditConservationUnderFaults` | gateway/internal/policy/gateway.go:106-188 | in every run, with any failures, executed rows written or lost = downstream calls + committed registrations, gated rows written or lost = approvals |
| `GatewayTotals.AuditIdsIncrease` | services/session-memory/store/governance.go:128-139 | audit ids increase strictly in every run |
| `GatewayTotals.AuditIsAppendOnly` | services/session-memory/store/governance.go:128-139 | audit rows are never changed or removed in a run |
| `GatewayTotals.RateLimitedTouchesNothing` | gateway/internal/policy/gateway.go:143-147 | a rate-limited call leaves registry, approvals and downstream untouched and writes one row |
| `GatewayAnswers.CallAnswersAndLogs` | gateway/internal/policy/gateway.go:133-188 | on every path, from request, tables, outside world and admission alone: the answer (downstream output or error, or the reason), the downstream call, and the one audit row with caller, "server/tool", redacted arguments and the stored text, whose id a call that ran returns |
| `GatewayAnswers.CallOpensItsApproval` | gateway/internal/policy/gateway.go:163-176 | exactly the calls that need an approval open one: pending, the session or NULL, the bare tool name, the redacted arguments |
| `GatewayAnswers.RegistrationLogs` | gateway/internal/policy/gateway.go:106-115 | a committed registration whose caller hears of it logs one row, "registry", "register:" + name, "ok"; any other logs none |
| `GatewayAnswers.DecisionIsRecorded` | services/session-memory/store/governance.go:68-82 | the approval a gated call opened says what its latest decision said and who made it, or is pending |
| `GatewayAnswers.AdmittedIffWindowsHaveRoom` | gateway/internal/policy/gateway.go:124-147 | in every run the limiter admits a call iff both windows have room, read off the run's earlier calls, under the caller's first committee or own name |
| `GatewayAnswers.GlobalThroughput` | gateway/internal/limits/limits.go:64-95 | in configured integers, 60 * the downstream calls of any stretch <= 60 * burst + perMinute * the seconds the global mark moved |
| `GatewayAnswers.CommitteeThroughput` | gateway/internal/limits/limits.go:64-95 | the same for each committee's downstream calls |
| `TaskState.TaskState.Append` | runtime/internal/server/server.go:71-82 | one drained event: the whole new view |
| `TaskState.TaskState.Conclude` | runtime/internal/server/server.go:83-95 | the end of the drain: the whole new view |
| `TaskState.TaskState.Drain` | runtime/internal/server/server.go:70-96 | an undisturbed drain absorbs the stream in order and then concludes |
| `TaskState.TaskState.ApprovalAccepted` | runtime/internal/server/server.go:202-207 | clears an awaiting status and its pending approval, whichever id was sent |
| `TaskState.TaskState.TakeSnapshot` | runtime/internal/server/server.go:114-123 | the JSON view, with a result only when done |
| `TaskProtocol.InvStep` | runtime/runtime.go:73-115 | every enabled action of every participant keeps the protocol's invariant |
| `TaskProtocol.ManagerSeesTheStream` | runtime/internal/server/server.go:70-96 | manager events, the one in flight and the channel are together the emitted trace; at a terminal status the manager has all of it, ending in the report and done |
| `TaskProtocol.ManagerOnlyAppends` | runtime/internal/server/server.go:71-74 | the manager's list only grows, in every schedule |
| `TaskProtocol.StatusAutomaton` | runtime/internal/server/server.go:36-44 | pending iff awaiting; terminal iff the drain concluded; done iff the run's error is nil; result iff done; error text is the run's own |
| `TaskProtocol.TerminalIsFrozen` | runtime/internal/server/server.go:83-95 | after a terminal status nothing changes the view |
| `TaskProtocol.DecisionsAreConserved` | runtime/runtime.go:84-101 | accepted decisions are, in order, the received ones and at most one buffered; each received one is the verdict of the Approve it served or was for another id; as many were served as Approves returned a decision |
| `TaskProtocol.AnswersComeFromDecisions` | runtime/runtime.go:84-101 | every Approve that returned a decision, granted or denied, carries the verdict of the one it consumed, under its id or the empty id, and no other Approve consumed it |
| `TaskProtocol.GrantsComeFromDecisions` | runtime/runtime.go:84-101 | Approve returns true only by consuming an accepted grant for its id or the empty id, and no decision serves two |
| `TaskProtocol.FittingDecisionResumes` | runtime/runtime.go:90-97 | a fitting decision resumes the engine with its verdict |
| `TaskProtocol.LateApprovalAcceptedIff` | runtime/agentruntime.go:78-87 | after finish a blocked resolver can always be refused, and can be accepted iff the buffer has room |
| `TaskProtocol.AtMostOneLateApproval` | runtime/agentruntime.go:78-87 | after finish at most one more decision is accepted and none is consumed |
| `TaskProtocol.LateApprovalHappens` | runtime/agentruntime.go:78-87 | a run in which a finished task accepts an approval |
| `TaskProtocol.ReplyToAnotherIdHidesTheWait` | runtime/internal/server/server.go:198-207 | from any state with a wait and a decision for another id, reachable steps end with the engine still waiting and the status no longer saying so |
| `TaskWaits.WaitShowsIffNoReplySince` | runtime/internal/server/server.go:71-82 | in every schedule, once the drain has caught up with a waiting engine, the status shows the wait iff no reply came after the last appended event, and then the pending approval is the one waited for |
| `TaskWaits.PendingWasAsked` | runtime/internal/server/server.go:75-78 | a pending approval is the latest one the manager saw, and its event, with that tool and id, is in the engine's stream |
| `TaskWaits.LateReplyHidesTheNextWait` | runtime/internal/server/server.go:198-207 | a run in which the reply to a served approval hides the wait for the next |
| `TaskProtocol.NeverStuck` | runtime/runtime.go:73-115 | a non-terminal state has an enabled internal step unless the engine computes or waits for a decision |
| `TaskProtocol.WorkIsDoneStepByStep` | runtime/runtime.go:104-114 | once the engine returned, every schedule does the remaining work one unit per internal step |
| `TaskProtocol.ReturnedTaskTerminates` | runtime/internal/server/server.go:70-96 | from every reachable returned state internal steps alone reach a terminal status with the whole stream |
| `TaskProtocol.ErrorEventsDoNotFail` | runtime/internal/server/server.go:78-93 | a task can be done and still show an error text |
| `TaskProtocol.BlockedApproversCanReturn` | runtime/agentruntime.go:80-87 | every resolver still blocked at the end can return |
| `TaskTrace.StateFollowsSchedule` | runtime/runtime.go:76-103 | the stream is the events of the hook calls whose send went through, with the tool and id asked with; Approve calls return in order, each for its own id; the outcome is what the engine returned |
| `TaskTrace.ApproversFollowSchedule` | runtime/agentruntime.go:78-87 | the accepted decisions are those the approvers let through had brought, in order |
| `TaskTrace.PendingWasRequested` | runtime/internal/server/server.go:75-78 | a pending approval is one the engine called Approve with, tool and id, or one it emitted itself |
| `TaskTrace.PendingWasAskedWith` | runtime/runtime.go:84-89 | with an engine that emits no approval request, there is an Approve call with the pending tool and id |
| `TaskTrace.EmittedRequestShows` | runtime/runtime.go:78-83 | a run in which an emitted request is pending though nothing was asked |
| `TaskTrace.WaitShowsTheRequest` | runtime/internal/server/server.go:75-78 | a shown wait shows tool and id of the request the engine waits in |
| `TaskTrace.TerminalSnapshotTellsTheRun` | runtime/internal/server/server.go:114-123 | a client of an ended task is told everything the engine streamed, the report with its output or error, "done", and the result or error it returned |
| `TaskTrace.LiveSnapshotTellsTheRun` | runtime/internal/server/server.go:114-123 | of a running task, a prefix of that, no result, and a pending approval exactly while awaiting one |
| `TaskTrace.GrantWasBrought` | runtime/runtime.go:84-101 | a granted Approve was granted by an approver who arrived with a grant for its id or the empty id and was accepted |
| `TaskTrace.RefusedOnlyWhenFinished` | runtime/agentruntime.go:78-87 | ResolveApproval fails only once the task has finished |
| `TaskTrace.StreamIsAtMost33Ahead` | runtime/runtime.go:41-45 | the stream is never more than 33 events ahead of the manager |
| `TaskTrace.EngineRunsAhead` | runtime/runtime.go:41-45 | the engine does get 32 events ahead of a drain that has taken none |
| `Assembly.TruncateToTokens` | services/session-memory/internal/assembly/assemble.go:85-106 | the loop computes the first cut, in steps of 16 bytes, that fits with the marker |
| `Assembly.ShrinkFits` | services/session-memory/internal/assembly/assemble.go:98-105 | for any counter the result is empty or a marked prefix within the limit |
| `Assembly.TruncationClosedForm` | services/session-memory/internal/assembly/assemble.go:85-106 | with the default counter: empty iff at most 4 tokens, otherwise s[:4m-16] plus the marker, costing exactly m |
| `Assembly.Assemble` | services/session-memory/internal/assembly/assemble.go:43-81 | the loop includes exactly the leading parts that fit and cuts or drops the first that does not |
| `Assembly.CutShort` | services/session-memory/internal/assembly/assemble.go:64-80 | the step that trims or drops completes the assembly: its result is that of the whole list, whatever follows |
| `AssemblyTheorems.AssemblyIsCorrect` | services/session-memory/internal/assembly/assemble.go:39-81 | any counter: tokens are the sum over the segments and within a positive budget; names form a prefix in priority order with at most one cut; no budget includes all |
| `AssemblyTheorems.TrimmingSpendsTheBudget` | services/session-memory/internal/assembly/assemble.go:64-77 | trimming spends the budget exactly; a trimmable misfit is dropped iff at most 4 tokens remain |
| `AssemblyTheorems.LargerBudgetIncludesMore` | services/session-memory/internal/assembly/assemble.go:43-81 | under a larger or absent budget the included names, and untrimmed text, extend the smaller ones |
| `AssemblyTheorems.JoinOverhead` | services/session-memory/internal/assembly/assemble.go:79 | exact text length, and at most ceil((k-1)/2) tokens over the count |
| `AssemblyTheorems.JoinOverheadIsReached` | services/session-memory/internal/assembly/assemble.go:79 | for every k an assembly of k segments whose text costs exactly that much more |
| `AssemblyTheorems.TextWithinBudgetIff` | services/session-memory/internal/assembly/assemble.go:1-4 | the text is within a positive budget iff segments and separators have at most four bytes a token |
| `AssemblyTheorems.TextWithinBudgetIffSeparatorsFit` | services/session-memory/internal/assembly/assemble.go:31-81 | the same condition on the parts that fit, trimmed or not, without looking at the text |
| `AssemblyTheorems.TextCanExceedBudget` | services/session-memory/internal/assembly/assemble.go:1-4 | a case where the text costs more than the budget |
| `AssemblyTheorems.AssembledIsCorrect` | services/session-memory/internal/assembly/assemble.go:39-81 | the guarantees for any counter, about what Assemble returns for any parts |
| `AssemblyTheorems.AssembledGrowsWithBudget` | services/session-memory/internal/assembly/assemble.go:43-81 | a larger or absent budget extends what Assemble returns |
| `AssemblyTheorems.AssembledByDefault` | services/session-memory/internal/assembly/assemble.go:31-81 | with the default counter, the exact spending of a trim and the exact condition for the text to be within budget |
| `AssemblyText.JoinedByBlankLines` | services/session-memory/internal/assembly/assemble.go:79 | segments are joined by two newline bytes |
| `AssemblyText.TrimmedBytes` | services/session-memory/internal/assembly/assemble.go:85-106 | with the default counter and more than four tokens, s[:4m-16] and the 13 bytes of the mark, spelled out |
| `AssemblyText.ConsideredInOrder` | services/session-memory/internal/assembly/assemble.go:43-50 | the parts considered are those with content, in the order given |
| `AssemblyText.TextIsTheParts` | services/session-memory/internal/assembly/assemble.go:43-81 | for any counter the text joins the contents of the included parts, whole and in order, then a start of the trimmed one with the mark |
| `Memory.MemoryStore.WriteFact` | services/session-memory/store/memory.go:67-85 | appends the fact, or refuses an unknown scope type, or fails and changes nothing |
| `Memory.MemoryStore.SearchFacts` | services/session-memory/store/memory.go:91-130 | filters, sorts and limits as the query says, or refuses an unknown scope type, or fails |
| `Memory.MemoryStore.ForgetFact` | services/session-memory/store/memory.go:134-142 | removes the id and reports whether it was there, or fails and changes nothing |
| `Memory.MemoryStore.ForgetFactsByKey` | services/session-memory/store/memory.go:146-154 | removes the scope's rows with the key and counts them, or fails and changes nothing |
| `Memory.MemoryStore.DeleteExpiredFacts` | services/session-memory/store/memory.go:158-166 | removes rows expired by the cutoff and counts them, or fails and changes nothing |
| `Memory.SearchIsExact` | services/session-memory/store/memory.go:87-130 | an unlimited search returns exactly the matching rows, in order, none of another scope |
| `Memory.LimitTakesAPrefix` | services/session-memory/store/memory.go:110-113 | a limited search is a prefix of the unlimited one |
| `Memory.RetentionIsInvisible` | services/session-memory/store/memory.go:156-166 | a sweep changes no default search from its cutoff on |
| `Memory.RetentionIsVisibleIff` | services/session-memory/store/memory.go:87-100 | a search including expired facts notices a sweep iff it removed a matching row |
| `Memory.PurgeIsInvisible` | services/session-memory/store/memory.go:67-166 | what a scope holds after any run is what the run leaves with everything else struck out |
| `Memory.ScopesDoNotInterfere` | services/session-memory/store/memory.go:87-99 | runs that agree on what concerns a scope give identical searches of it |
| `Memory.SweepsAreInvisibleInRuns` | services/session-memory/store/memory.go:156-166 | over whole runs, default searches are as if no sweep had run |
| `MemoryAnswers.SearchReturnsWhatIsAskedFor` | services/session-memory/store/memory.go:87-113 | an unlimited search returns each row of the scope that is unexpired, unless expired ones are wanted, and shares a tag, if any are named, as often as the table holds it |
| `MemoryAnswers.SearchIsNewestFirst` | services/session-memory/store/memory.go:109 | any search lists by falling creation time, and rows of one instant by key in byte order |
| `MemoryAnswers.LimitLeavesOutTheOldest` | services/session-memory/store/memory.go:110-113 | a limit is filled before a row asked for is left out, and what is left out should not have come first |
| `MemoryAnswers.LimitIsKept` | services/session-memory/store/memory.go:110-113 | no more rows than a positive limit, all asked for |
| `MemoryAnswers.WrittenFactIsFound` | services/session-memory/store/memory.go:67-113 | a fact written is found in its scope with all it was written with, until it expires |
| `MemoryAnswers.RemovalsAreExact` | services/session-memory/store/memory.go:134-166 | each forget and sweep removes exactly the rows it names |
| `Builder.FormatFacts` | services/session-memory/internal/assembly/builder.go:116-132 | the loop renders each fact with its tags, in order |
| `Builder.FormatTurns` | services/session-memory/internal/assembly/builder.go:134-144 | the loop renders each turn, in order |
| `Builder.ContextBuilder.Build` | services/session-memory/internal/assembly/builder.go:56-98 | the assembly of the seven parts in priority order, or the first failing read |
| `Builder.BuildSeesOnlyItsScope` | services/session-memory/internal/assembly/builder.go:12-14 | a context never depends on other scopes' facts |
| `Builder.SweepsDoNotChangeContexts` | services/session-memory/internal/assembly/builder.go:59-67 | a context never depends on past sweeps |
| `Builder.ContextKeepsPriority` | services/session-memory/internal/assembly/builder.go:87-97 | a context is within budget, in priority order, and only tool output is cut |
| `BuilderAnswers.FactsLine` | services/session-memory/internal/assembly/builder.go:122-128 | a fact's line is "- key: value" with its tags, if any, in brackets |
| `BuilderAnswers.FactsByLine` | services/session-memory/internal/assembly/builder.go:116-132 | one line a fact, in order, under a heading |
| `BuilderAnswers.TurnsByLine` | services/session-memory/internal/assembly/builder.go:134-144 | one line a turn, "role: content", under a heading |
| `BuilderAnswers.RecentAreTheLast` | services/session-memory/internal/assembly/builder.go:73-85 | the recent turns are the last ones, oldest first |
| `BuilderAnswers.FailsAtTheFirstFailedRead` | services/session-memory/internal/assembly/builder.go:59-85 | a build fails exactly with the first read that fails, of those the turn asks for, in the order memory, summary, turns |
| `BuilderAnswers.ContextIsTheTexts` | services/session-memory/internal/assembly/builder.go:56-98 | the seven texts in their order of relevance, from the turn's fields, the facts and the session: the included names and the text are those of the first ones with content, whole, only tool output is ever cut, and without a budget all are there |
| `Slack.LastError` | services/slack-gateway/internal/slack/handler.go:229-236 | the last error event's text, or a default |
| `Slack.Conclude` | services/slack-gateway/internal/slack/handler.go:142-153 | the verdict a terminal poll leads to, none otherwise |
| `Slack.PollUntil` | services/slack-gateway/internal/slack/handler.go:133-157 | the loop ends at the deadline or at the first terminal poll, having posted the approvals once each and one verdict or timeout |
| `Slack.RunTask` | services/slack-gateway/internal/slack/handler.go:121-158 | the whole trace of posts: nothing for blank text, a refusal, or the polled trace |
| `Slack.AnnouncedOnce` | services/slack-gateway/internal/slack/handler.go:138-141 | no approval id is posted twice |
| `Slack.AnnouncedIffShown` | services/slack-gateway/internal/slack/handler.go:138-141 | an approval id is posted iff some poll showed it pending |
| `Slack.AnnouncementsOnlyGrow` | services/slack-gateway/internal/slack/handler.go:138-141 | approvals are posted in first-seen order |
| `Slack.VerdictIsTheRunsOwn` | services/slack-gateway/internal/slack/handler.go:142-153 | in every interleaving of the runtime, the posted verdict is that run's own output or own error |
| `Slack.AnnouncedWereAsked` | services/slack-gateway/internal/slack/handler.go:138-141 | over any run of the task polled, every approval announced has its event, with that tool and id, in the engine's stream |
| `SlackTrace.PostsInOrder` | services/slack-gateway/internal/slack/handler.go:121-158 | the acknowledgement first, exactly one ending and that last, approvals between, all in the request's thread |
| `SlackTrace.ApprovalPostedIffShown` | services/slack-gateway/internal/slack/handler.go:138-141 | an approval message with this id and tool is posted iff the first poll that shows the id pending shows it for that tool |
| `SlackTrace.ApprovalsPostedInTurn` | services/slack-gateway/internal/slack/handler.go:138-141 | approvals are posted in the order first shown, so none twice |
| `SlackTrace.EndingTellsTheLastPoll` | services/slack-gateway/internal/slack/handler.go:142-157 | the ending is the output of a done poll, the latest error of a failed one, or a timeout if no poll before the deadline was either |
| `SlackTrace.PostedApprovalWasRequested` | services/slack-gateway/internal/slack/handler.go:138-141 | over any run of the task polled, every approval posted was asked for, or emitted, by its engine with that tool and id |
| `SlackTrace.EndingIsWhatTheEngineReturned` | services/slack-gateway/internal/slack/handler.go:142-153 | and the final post is the output or the error its engine returned |

## Left out

- HTTP handlers, authentication, JSON encoding, the MCP proxy and Slack message blocks are I/O around the core.
- Redaction of arguments is an arbitrary function of the stored arguments; downstream receives the raw ones.
- Tokens, rates and clock readings are exact reals; float64 rounding and clock saturation are not modelled.
- SQL text, drivers and torn reads between the queries that load one server: each table operation is one atomic step.
- Server health, timestamps, tool ids and latency carry no decision and are dropped; ids are counters.
- Ageing out of old audit rows is a retention job outside the gateway: audit rows are append-only in runs of the modelled steps.
- Session deletion, which cascades to approvals, is not something the modelled repository functions do.
- Recipe loading, model selection and the Goose engine: the engine is any sequence of Emit and Approve calls.
- A cancellable task context: the manager submits with a background context; only Approve's own context can end.
- Several engine goroutines calling the hooks at once: the modelled engine calls them one after another.
- A nil token counter is the default counter passed explicitly.
- Lifecycle, impact, approval status and task status are enumerations with one catch-all where the database would refuse the text.
- Slack's event routing, signatures and interaction buttons, and the scheduler's cron matching.
- `GatewayTotals.AuditConservation`: is stated for runs without database failures, because a failed audit write is ignored by the gateway; `AuditConservationUnderFaults` is the form without that condition.
- A statement that reports a failure has changed nothing, except in registration, where a failure after the commit is modelled; a row written although its statement reported a failure is not.
