# rerun-pr-workflows-action, modelled in Dafny

This project models the GitHub Action `rerun-pr-workflows-action`. On a push
to a branch, the action finds the open pull requests whose base is that
branch. It waits out GitHub's eventually consistent `mergeable` state by
refetching a pull request while it reads `UNKNOWN`. Then it re-runs the target
workflow's runs for every pull request that is `MERGEABLE`, or that is still
`UNKNOWN` after the last refetch.

The model covers three parts:

- the engine `Action` (`src/action.ts`): the event and ref gates, discovery,
  the mergeability retry loop with its backoff delay, the mergeable switch,
  the run filter, re-run triggering, and the `awaitAll` aggregator;
- the `Problem` error envelope and the pull request record (`src/types.ts`);
- the `ActionsReporter` (`src/reporter.ts`), which logs progress and keeps an
  `interactions` flag.

Modules, in dependency order:

- `Wrappers`: `Option` and `Result`.
- `Text`: decimal rendering of numbers (`NatToString`, with a proved
  round trip), `StartsWith`, and `Join`.
- `Types`: JavaScript values, errors, `Problem` with its constructor
  (`NewProblem` as the function, `ConstructProblem` as the imperative form),
  and the pull request and workflow run records.
- `Reporter`: the four notifications as an `Event` datatype, and
  `ActionsReporter` as a class. Its real fields are `interactions` and `log`,
  the log being (level, message) entries. A ghost history of notifications
  ties each method to the pure log function `LogOf`.
- `Action`: the engine. The remote client is a datatype of total functions
  from request arguments to replies. A point refetch also receives its index
  (1 for the first), because the host's answer changes over time.
  `Math.random` becomes a function from (pull request number, refetch index)
  to an integer jitter in [0, 1000]. Everything the engine does is recorded as
  one ordered trace of effects: sleeps, requests to the client, and
  notifications to the reporter. `Reports` and `Requests` project the trace.
  The two loops of the source are methods proved against their
  pure specifying functions. `ResolveUnknownMergeable` is proved equal to
  `Resolve`, and `AwaitAll` is proved equal to `Aggregated`. The rest of the
  engine is made of `map`, `filter` and `switch`, so it is written as
  functions.
- `Scenarios`: the situations of `__tests__/action.test.ts`, stated over
  arbitrary clients, payloads and records that have the shapes the tests
  rely on.

The concurrent fan-out (`Promise.allSettled` over `map(async …)`) is
flattened. Pull request units run one after another in discovery order, and
re-run units in listing order. `awaitAll` only looks at the settled outcomes,
so its result does not depend on the interleaving. The effect order within
the trace can differ from the order a concurrent run shows; see "Left out".

`done()` is reported only after `await awaitAll(...)` returns, so it is
skipped when any pull request unit failed (src/action.ts:75-76).
`RunReportsDoneIffAllSucceeded` proves that `done()` is reported exactly when
the run succeeds.

## Model

| member | source | states |
|---|---|---|
| Text.NatToString | src/action.ts:67 | a number renders as a non-empty string of decimal digits with no leading zero; `NatToStringRoundTrip` reads it back |
| Text.NatToStringRoundTrip | src/action.ts:67 | the decimal rendering of a pull request number or run id in a message reads back as that number |
| Text.NatToStringInjective | src/action.ts:171 | two numbers that render to the same digits are equal |
| Text.NatToStringDelimited | src/action.ts:67-69 | a number's digits followed by text that starts with a non-digit determine both the number and that text |
| Text.NatToStringBetween | src/action.ts:67-69 | between a shared prefix and a shared separator starting with a non-digit, a rendered number and the text after the separator are both determined |
| Text.StartsWith | src/action.ts:35 | specified by `Action.BranchOf`: a ref passes the gate if and only if `refs/heads/` is its prefix |
| Text.Join | src/action.ts:236 | joining no parts gives the empty string and joining one part gives that part; `JoinAppend` places the separators |
| Text.JoinAppend | src/action.ts:236 | `join(', ')` puts exactly one separator between consecutive parts: joining a concatenation joins the two joins |
| Types.NewProblem | src/types.ts:20-27 | the message is kept; the bag is a copy of the options (empty for a missing bag); a `cause` key is moved out of the bag into `cause`; no `cause` key remains; every other key keeps its value |
| Types.ConstructProblem | src/types.ts:20-27 | the step-by-step constructor (copy, test for `cause`, assign, delete) builds exactly `NewProblem`'s result |
| Types.NewProblemKeepsBag | src/types.ts:22-26 | putting the moved cause back into the constructed bag gives the caller's bag: no key is lost or changed |
| Types.NewProblemOfOptionsBag | src/types.ts:20-27 | every problem without a `cause` key in its bag is what the constructor builds from that problem's own options |
| Types.PullRequestValue | src/action.ts:70 | specified by `Action.ReconcileWrapsFailure` and `Action.RunFailureNamesPullRequests`: the object under `pullRequest` in a unit's Problem, which reappears with `error` added in the run's context entry |
| Types.RunValue | src/action.ts:174 | specified by `Action.TriggerRerunEffects`: the object under `run` in a refused re-run's Problem |
| Reporter.ActionsReporter.constructor | src/reporter.ts:17 | a new reporter has seen nothing, has an empty log and `interactions` false |
| Reporter.ActionsReporter.PullRequestIgnored | src/reporter.ts:19-24 | sets `interactions` and appends one info line `Skipped PR #<n> in <mergeable> state.` |
| Reporter.ActionsReporter.RerunTriggered | src/reporter.ts:26-34 | sets `interactions` and appends one info line `Triggered re-run of workflow run <id> in <status> state for PR #<n>.` |
| Reporter.ActionsReporter.NoRunsFound | src/reporter.ts:36-39 | sets `interactions` and appends one error line `No runs found for PR #<n>.` |
| Reporter.ActionsReporter.Done | src/reporter.ts:41-45 | appends `No pull requests found.` at info level if and only if there was no interaction before; leaves the flag unchanged |
| Reporter.IgnoredMessage | src/reporter.ts:22 | specified by `ActionsReporter.PullRequestIgnored` and `LogsIgnoredPullRequest`: `Skipped PR #<n> in <mergeable> state.` |
| Reporter.StatusText | src/reporter.ts:32 | specified by `ActionsReporter.RerunTriggered`: a status renders as itself, a null status as `null` |
| Reporter.TriggeredMessage | src/reporter.ts:32 | specified by `ActionsReporter.RerunTriggered` and `LogsTriggeredRerun`: `Triggered re-run of workflow run <id> in <status> state for PR #<n>.` |
| Reporter.NoRunsMessage | src/reporter.ts:38 | specified by `ActionsReporter.NoRunsFound`, `LogsNoRunsFound` and `ErrorLinesAreNoRunsLines`: `No runs found for PR #<n>.`, the only error-level line |
| Reporter.Emitted | src/reporter.ts:19-45 | specified by the four reporter methods, whose contracts append exactly these lines, and by `DoneLogsOnlyWithoutInteraction`: one line per notification other than `done()`, and for `done()` one line if and only if nothing came before |
| Reporter.LogOf | src/reporter.ts:17-45 | specified by `LogOfSnoc`, `ErrorLinesAreNoRunsLines` and `NoPullRequestsLoggedIff`: the log of a history is what the notifications wrote one after another |
| Reporter.LogOfSnoc | src/reporter.ts:17-45 | one more notification appends exactly its own lines, given the history before it, to the log |
| Reporter.InteractedAfterDone | src/reporter.ts:41-45 | `done()` neither sets nor clears the interaction flag |
| Reporter.InteractionsNeverReset | src/reporter.ts:17-39 | once a notification other than `done()` has arrived, the flag stays set whatever follows |
| Reporter.ErrorLinesAreNoRunsLines | src/reporter.ts:19-45 | the error-level lines are exactly the `noRunsFound` messages, one per such notification, in order; nothing else logs at error level |
| Reporter.NoPullRequestsLoggedIff | src/reporter.ts:41-45 | "No pull requests found." appears in the log if and only if the first notification was `done()` |
| Reporter.DoneLogsOnlyWithoutInteraction | src/reporter.ts:41-45 | `done()` after no interaction adds exactly the "No pull requests found." line, and after any interaction adds nothing |
| Reporter.LogsIgnoredPullRequest | __tests__/reporter.test.ts:14-25 | PR #1337 in state `foo`, then `done()`, logs only `Skipped PR #1337 in foo state.` at info level |
| Reporter.LogsNoRunsFound | __tests__/reporter.test.ts:27-36 | `noRunsFound` for PR #1337, then `done()`, logs only the error line `No runs found for PR #1337.` |
| Reporter.LogsTriggeredRerun | __tests__/reporter.test.ts:38-52 | run 1337 in state `completed` for PR #42, then `done()`, logs only the expected info line |
| Reporter.LogsNoPullRequests | __tests__/reporter.test.ts:54-62 | a lone `done()` logs only `No pull requests found.` at info level |
| Action.BranchOf | src/action.ts:35-41 | the ref is accepted if and only if it starts with `refs/heads/`; then `refs/heads/` + branch is the ref; otherwise the error is `unsupported ref: <ref>` |
| Action.DelayMillis | src/action.ts:131-133 | the delay before refetch `i` is at least `min(i,4)*1000` and at most `(min(i,4)+1)*1000` ms, so always within [1000, 5000] |
| Action.RepoOf | src/action.ts:150-153 | specified by `TriggerRerunsEffects`, `TriggerRerunEffects` and `ResolveFromShape`: the owner login and repository name of the pull request's own repository address the run listing, the re-runs and the refetches |
| Action.QueryOf | src/action.ts:118-122 | specified by `ResolveFromShape`: every refetch queries the discovered pull request's owner, repository and number |
| Action.ResolveFrom | src/action.ts:125-139 | specified by `ResolveFromShape`, `ResolveFromReplies` and `ResolveFromResult` |
| Action.Resolve | src/action.ts:105-143 | specified by `ResolveUnknownMergeable`, whose loop produces exactly its trace and result, and by `ResolveBounded` and `ResolveReportsNothing` |
| Action.ResolveUnknownMergeable | src/action.ts:105-143 | the retry loop produces exactly the trace and result of `Resolve` |
| Action.ResolveFromShape | src/action.ts:118-139 | the loop's trace is a whole number of rounds, no more than the attempts left; each round sleeps for its index's delay and then queries the ORIGINAL owner, repository and number |
| Action.ResolveBounded | src/action.ts:124-139 | the loop makes at most nine refetches, and none when the discovered state is not `UNKNOWN` |
| Action.ResolveFromReplies | src/action.ts:125-139 | the loop refetches only while the state is `UNKNOWN`: every reply before the last was a success still `UNKNOWN` |
| Action.ResolveFromResult | src/action.ts:125-139 | the loop returns its last reply, or the discovered snapshot if it made no refetch; a result still `UNKNOWN` means all nine attempts were used; a failure comes from a refetch |
| Action.RefetchStepsAt | src/action.ts:131-138 | round `i` sleeps for the delay of its refetch index and then fetches the original pull request |
| Action.RefetchStepsEffects | src/action.ts:125-139 | every request of the loop is the original point query, every sleep lies in [1000, 5000] ms, and the loop reports nothing |
| Action.RetriesUntilMergeable | src/action.ts:125-139 | replies `UNKNOWN`, then `MERGEABLE`, after a discovered `UNKNOWN` give exactly two refetch rounds and the `MERGEABLE` snapshot |
| Action.RejectedMessages | src/action.ts:228 | specified by `RejectedMessagesAppend`, `RejectedMessagesSingleton` and `RejectedMessagesEmptyIff`: the rejected outcomes' messages, in order |
| Action.RejectedMessagesSingleton | src/action.ts:224-230 | one outcome contributes its message if rejected and nothing if fulfilled |
| Action.RejectedMessagesAppend | src/action.ts:223-231 | the collected messages of a concatenation of outcomes are those of its parts, in order |
| Action.RejectedMessagesEmptyIff | src/action.ts:233 | a message is collected if and only if some outcome was rejected |
| Action.CauseValue | src/action.ts:229 | specified by `RejectedEntry`: `error.cause`, `undefined` when no cause was given |
| Action.SpreadFields | src/action.ts:229 | specified by `RejectedEntry`: the spread `{...error.opts[errorProp]}` copies an object context's fields |
| Action.ResultEntry | src/action.ts:224-230 | specified by `RejectedEntry` and `Aggregated`: a fulfilled outcome keeps its value; a rejected one keeps its context plus `error` |
| Action.RejectedEntry | src/action.ts:229 | a unit that threw a Problem with a cause and an object context under `errorProp` leaves exactly that context with `error` set to the cause |
| Action.Entries | src/action.ts:223-231 | specified by `Aggregated` and `RunFailureNamesPullRequests`: one result entry per outcome, in order |
| Action.Aggregated | src/action.ts:215-240 | fails if and only if some outcome was rejected; on success gives exactly the fulfilled values, one per outcome, in order; on failure the message is the rejection messages joined with `", "`, there is no cause, and the bag holds one entry per outcome under `resultsProp` |
| Action.AwaitAll | src/action.ts:215-240 | the loop over settled outcomes returns exactly `Aggregated` |
| Action.Selects | src/action.ts:162-167 | specified by `SelectRuns`: a run of the named workflow that lists this pull request number among its pull requests |
| Action.SelectRuns | src/action.ts:162-167 | a run is kept if and only if it is in the listing, its name is the target workflow's, and its associated pull requests include this one |
| Action.SelectRunsAppend | src/action.ts:162-167 | the filter keeps listing order: selecting from a concatenation concatenates the selections of its parts |
| Action.RerunFailureMessage | src/action.ts:170-173 | specified by `TriggerRerunEffects` and `RerunFailureMessageInjective`: `failed to re-run workflow run <id>: <cause>`, which determines the id and the cause message |
| Action.RerunFailureMessageInjective | src/action.ts:170-175 | two refused re-runs' messages are equal only for the same run id and the same cause message |
| Action.TriggerRerun | src/action.ts:186-202 | specified by `TriggerRerunEffects`, which also covers the `catch` of src/action.ts:169-176 |
| Action.TriggerEach | src/action.ts:168-177 | one outcome per run; `TriggerEachEffects` and `TriggerEachOutcomes` state the requests, notifications and outcomes |
| Action.TriggerRerunEffects | src/action.ts:169-176 | a re-run first sends its request; on acceptance it reports `rerunTriggered` after the request; on refusal it reports nothing and rejects with `failed to re-run workflow run <id>: <cause>`, cause the error and context the run |
| Action.TriggerEachEffects | src/action.ts:186-202 | re-running a list of runs requests them in order, reports `rerunTriggered` for exactly the accepted ones in order, and collects the refusal messages in order |
| Action.TriggerEachRequests | src/action.ts:192-199 | re-running a list of runs requests each run's re-run once, in order |
| Action.TriggerEachReports | src/action.ts:201 | `rerunTriggered` is reported for exactly the accepted runs, in order |
| Action.TriggerEachRefusals | src/action.ts:169-176 | the rejection messages are the refused runs' `failed to re-run workflow run <id>: <cause>` messages, in order |
| Action.TriggerEachOutcomes | src/action.ts:168-177 | the outcome of run `i` is fulfilled if and only if the client accepted its request |
| Action.AllAcceptedReports | src/action.ts:201 | when every request is accepted, the notifications are exactly `rerunTriggered` for each run, in listing order |
| Action.TriggerReruns | src/action.ts:146-184 | specified by `TriggerRerunsEffects` |
| Action.TriggerRerunsEffects | src/action.ts:146-184 | the run listing comes first; a listing error propagates unchanged; exactly the selected runs are re-run, in listing order (`SelectRunsAppend`); with none selected, `noRunsFound` is reported once and no re-run is requested; success if and only if every re-run was accepted; on failure the message joins the refused runs' messages |
| Action.ResolveReportsNothing | src/action.ts:105-143 | mergeability resolution reports nothing and only sends the point query for the discovered pull request |
| Action.RoutesToReruns | src/action.ts:51-58 | specified by `ReconcileRoutes`: `UNKNOWN` falls through to `MERGEABLE`, and both go to `triggerReruns` |
| Action.ReconcileBody | src/action.ts:48-64 | specified by `ReconcileRoutes` |
| Action.Reconcile | src/action.ts:47-72 | specified by `ReconcileWrapsFailure` and `ReconcileReports` |
| Action.PullRequestFailureMessage | src/action.ts:66-69 | specified by `ReconcileWrapsFailure` and `PullRequestFailureMessageInjective`: `failed to trigger runs for PR #<n>: <cause>`, which determines the number and the cause message |
| Action.PullRequestFailureMessageInjective | src/action.ts:66-71 | two units' rejection messages are equal only for the same pull request number and the same cause message |
| Action.ReconcileRoutes | src/action.ts:49-64 | a failed resolution is the unit's error; a resolved `UNKNOWN` or `MERGEABLE` state goes to `triggerReruns` with the resolved snapshot; any other state reports exactly one `pullRequestIgnored`, lists no runs and succeeds |
| Action.ReconcileWrapsFailure | src/action.ts:65-72 | a unit rejects if and only if its body failed; the Problem says `failed to trigger runs for PR #<n>: <message>` with the DISCOVERED number, its cause is the error and its context is the discovered pull request |
| Action.ReconcileReports | src/action.ts:47-73 | a pull request's unit never reports `done()`, and a unit that succeeds has reported at least one notification |
| Action.AcceptedReportsHaveNoDone | src/action.ts:201 | re-run notifications are never `done()` |
| Action.ReconcileAll | src/action.ts:47-73 | one outcome per discovered pull request; `ReconcileAllEffects` states which |
| Action.ReconcileAllEffects | src/action.ts:47-73 | outcome `i` is that of discovered pull request `i`; the notifications are the units' own in discovery order, and none is `done()` |
| Action.Run | src/action.ts:16-29 | specified by `RunRejectsUnsupportedEvent`, `RunListsPullRequestsOfPushedBranch` and `RunReportsDoneIffAllSucceeded` |
| Action.HandlePushEvent | src/action.ts:31-77 | specified by `RunRejectsUnsupportedRef`, `RunListsPullRequestsOfPushedBranch` and `RunAfterDiscoveryShape` |
| Action.RunRejectsUnsupportedEvent | src/action.ts:24-28 | a non-push event throws `unsupported event: <name>` with no request and no notification |
| Action.RunRejectsUnsupportedRef | src/action.ts:35-37 | a push to a ref outside `refs/heads/` throws `unsupported ref: <ref>` with no request and no notification |
| Action.RunListsPullRequestsOfPushedBranch | src/action.ts:39-42 | the first request lists the open pull requests of the payload's owner and repository whose base is the pushed branch; a listing error ends the run with that error and nothing else |
| Action.RunAfterDiscoveryShape | src/action.ts:47-76 | after discovery: the listing, the units' effects, then `done()` when the aggregate succeeded; otherwise the aggregate Problem is the error |
| Action.RunAfterDiscoveryEffects | src/action.ts:75-76 | the run succeeds if and only if every unit succeeded; its requests are the listing followed by the units' requests; its notifications are the units' followed by `done()` exactly on success |
| Action.RunReportsDoneIffAllSucceeded | src/action.ts:75-76 | `done()` is reported if and only if the run succeeds, which is if and only if every pull request unit succeeded; then it is the last effect and follows all the units' notifications |
| Action.RunFailureNamesPullRequests | src/action.ts:65-75 | a failed run's error is a Problem joining the rejected units' messages with `", "`, each naming its discovered pull request's number; the context holds one entry per unit, a failed unit's entry being that pull request plus `error` |
| Action.RunReportsNothingBeforeDiscovery | src/action.ts:24-42 | a run rejected by a gate, or whose discovery fails, fails and reports nothing |
| Action.FirstReportIsDone | src/action.ts:75-76 | after discovery, the first notification is `done()` if and only if the run succeeded with no pull request to work on |
| Action.NoPullRequestsLoggedOnlyWhenNoneFound | src/action.ts:75-76 | through the reporter's log: "No pull requests found." is written if and only if the run succeeded and discovery returned no pull request |
| Scenarios.IgnoredUnit | src/action.ts:62-63 | a pull request discovered in a state other than `UNKNOWN`/`MERGEABLE` only reports `pullRequestIgnored` and succeeds |
| Scenarios.MergeableUnit | src/action.ts:58-60 | a discovered `MERGEABLE` pull request has exactly the trace of `triggerReruns`, whose failure it wraps with the pull request's message |
| Scenarios.NoRunsUnit | src/action.ts:179-183 | a `MERGEABLE` pull request without runs lists them once and reports `noRunsFound` |
| Scenarios.RefetchedOnce | src/action.ts:125-139 | a discovered `UNKNOWN` whose first refetch is settled gives one sleep of the first delay, one point query, and the refetched snapshot |
| Scenarios.RefetchedToNoRunsUnit | __tests__/action.test.ts:156-181 | refetched to `MERGEABLE` without runs: one point query, then the run listing for the refetched head branch, and `noRunsFound` with the refetched snapshot |
| Scenarios.RefetchedToIgnoredUnit | __tests__/action.test.ts:163-169 | refetched to a state that is ignored: one point query and `pullRequestIgnored` with the refetched snapshot |
| Scenarios.ReportsNoPullRequestsFound | __tests__/action.test.ts:44-80 | no open pull request: the run succeeds after one listing, reports only `done()`, and the log is exactly "No pull requests found." |
| Scenarios.RerunsMatchingRun | __tests__/action.test.ts:258-293 | of a run of another workflow, a run for another pull request and a matching run, only the last is re-run and reported |
| Scenarios.RerunsWorkflows | __tests__/action.test.ts:206-307 | the re-runs test: the run succeeds; requests are the pull request listing, the run listing for the head branch and the one re-run; notifications are `rerunTriggered` for the matching run, then `done()` |
| Scenarios.SecondOfTwoRefused | __tests__/action.test.ts:362-365 | of two re-runs, the second refused: both requested in order, the first reported, the second's message collected |
| Scenarios.SecondRerunRefused | __tests__/action.test.ts:350-365 | `triggerReruns` with two matching runs, the second refused, fails with `failed to re-run workflow run <id>: <cause>` after requesting both in order and reporting the first |
| Scenarios.SecondRerunRefusedUnit | __tests__/action.test.ts:335-370 | that pull request's unit rejects with `failed to trigger runs for PR #<n>: failed to re-run workflow run <id>: <cause>` |
| Scenarios.CollectsErrors | __tests__/action.test.ts:309-391 | the collects-errors test: the run fails with the nested message; requests are the listing, the run listing and both re-runs in order; the first re-run's notification is kept; `done()` is not reported |
| Scenarios.CollectsErrorsMessage | __tests__/action.test.ts:367-370 | for PR #1, run 1337 and cause `foobar`, the nested message is the one the test expects |
| Scenarios.RefetchedUnits | __tests__/action.test.ts:156-181 | the two `UNKNOWN` pull requests of the retry test, in discovery order: both succeed with the refetched snapshots' notifications |
| Scenarios.LastThreeUnits | __tests__/action.test.ts:144-181 | the `MERGEABLE` pull request without runs followed by the two refetched ones |
| Scenarios.RetriesUnknownUnits | __tests__/action.test.ts:131-181 | all four pull requests of the retry test succeed, with their notifications and requests in discovery order |
| Scenarios.RetriesUnknownPullRequests | __tests__/action.test.ts:82-204 | the retry test: the run succeeds; notifications are ignored(#1), noRunsFound(#2), noRunsFound(refetched #3), ignored(refetched #4), `done()`; the refetches query the original numbers |
| Scenarios.RunOfOnePullRequest | src/action.ts:39-76 | with one discovered pull request, the run's requests are the listing then the unit's; success gives the unit's notifications plus `done()`, failure carries the unit's message |
| Scenarios.RunOfSucceedingUnits | src/action.ts:47-76 | when all units succeed, the run succeeds with the units' notifications followed by `done()` |

## Left out

- Concurrency. `Promise.allSettled` over the mapped promises is flattened into
  sequential units in discovery order, and re-runs in listing order. Suspension
  points, interleavings and unbounded parallelism are not modelled.
- Scenarios.RetriesUnknownPullRequests: the units run in discovery order, so
  `noRunsFound` of pull request #3 precedes `pullRequestIgnored` of #4. In the
  test, the two refetches interleave and it observes these two the other way
  round. The point-query requests appear interleaved with the run listings,
  while the test checks each client method's calls separately.
- Action.DelayMillis: `Math.round((min(i,4) + Math.random()) * 1000)` is
  floating point. The model takes the sub-second jitter as an integer in
  [0, 1000] given by a function parameter, and proves only the bounds.
- Sleeping (`setTimeout`) is recorded as a `Sleep` effect of the trace; time
  does not pass.
- The GraphQL query texts (`prQueryFragment`) and the response unwrapping
  `(data as any).repository...` are left out. The client's replies are already
  decoded records, or errors.
- Discovery asks for the last 100 open pull requests. The run listing returns
  only the host's first page. The model takes whatever list the client
  returns.
- `core.debug` and the `core.warning` for a pull request still `UNKNOWN` are
  not modelled; the engine's own logging is not part of the trace.
- Non-`Error` causes (`cause instanceof Error ? cause.message : cause`). Every
  cause in the model is an `Error` (a plain error or a `Problem`), which is
  what the client and the nested catches throw.
- The spread `{...error.opts[errorProp]}` of something that is not an object
  is modelled as contributing no fields. The values that reach it are objects
  or `undefined`.
- Pull request numbers and run ids are JavaScript numbers (doubles). The
  model takes them as unbounded naturals, and `NatToString` matches the
  template-literal rendering only for safe integers (below 2^53). Larger
  values are not exactly representable and from 1e21 on render in exponent
  form; the host's numbers never reach that range.
- `WorkflowRun` keeps only the fields the engine and the reporter read: id,
  name, status and the associated pull request numbers.
- `src/main.ts` (input reading, client construction, exit-code mapping) is not
  part of this model.
