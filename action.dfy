/** The reconciliation engine (src/action.ts). The remote client is treated
    as data: every reply is a function of the request's arguments, and what
    the engine does is recorded as one ordered trace of effects (sleeps,
    requests to the client, notifications to the reporter). */
module Action {
  import opened Wrappers
  import opened Types
  import opened Text
  import opened Reporter

  const PushEventName: string := "push"
  const BranchRefPrefix: string := "refs/heads/"
  const UnknownState: string := "UNKNOWN"
  const MergeableState: string := "MERGEABLE"
  /** The bound in the loop guard `attempt++ < 10`, where `attempt` starts at 1. */
  const AttemptLimit: nat := 10

  /** The random sub-second part of a backoff delay, in milliseconds:
      `Math.round((m + Math.random()) * 1000) - m * 1000` lies in [0, 1000]. */
  type JitterMs = j: int | 0 <= j <= 1000

  /** The `{owner, repo}` pair every request is addressed to. */
  datatype RepoRef = RepoRef(owner: string, repo: string)

  /** One request to the remote client, with the arguments it is sent. */
  datatype Call =
    | ListOpenPullRequests(repo: RepoRef, branch: string)
    | FetchPullRequest(repo: RepoRef, number: nat)
    | ListWorkflowRuns(repo: RepoRef, event: string, branch: string)
    | RerunWorkflowRun(repo: RepoRef, runId: nat)

  /** What the engine does, in order. */
  datatype Effect =
    | Sleep(millis: int)
    | Request(call: Call)
    | Report(event: Event)

  /** The remote client's replies. `pullRequest` also receives the index of
      the refetch (1 for the first), since the host's answer changes while
      it computes mergeability. */
  datatype Client = Client(
    openPullRequests: (RepoRef, string) -> Result<seq<PullRequest>, Error>,
    pullRequest: (RepoRef, nat, nat) -> Result<PullRequest, Error>,
    workflowRuns: (RepoRef, string) -> Result<seq<WorkflowRun>, Error>,
    rerun: (RepoRef, nat) -> Result<(), Error>)

  /** The draws of `Math.random`, as jitter, by pull request number and refetch index. */
  type Random = (nat, nat) -> JitterMs

  /** The invocation context of `Action.run`: the event name, the push
      payload's `ref` and `repository`, and the target workflow name. */
  datatype Context = Context(eventName: string, ref: string, repository: Repository, workflowName: string)

  /** A trace together with how the traced code ended: returned or threw. */
  datatype Step = Step(trace: seq<Effect>, result: Result<(), Error>)

  // ---------------------------------------------------------------- traces

  function Reports(trace: seq<Effect>): seq<Event>
    decreases |trace|
  {
    if |trace| == 0 then [] else (if trace[0].Report? then [trace[0].event] else []) + Reports(trace[1..])
  }

  function Requests(trace: seq<Effect>): seq<Call>
    decreases |trace|
  {
    if |trace| == 0 then [] else (if trace[0].Request? then [trace[0].call] else []) + Requests(trace[1..])
  }

  lemma {:induction false} ReportsAppend(a: seq<Effect>, b: seq<Effect>)
    ensures Reports(a + b) == Reports(a) + Reports(b)
    decreases |a|
  {
    if |a| > 0 {
      assert (a + b)[1..] == a[1..] + b;
      ReportsAppend(a[1..], b);
    } else {
      assert a + b == b;
    }
  }

  lemma {:induction false} RequestsAppend(a: seq<Effect>, b: seq<Effect>)
    ensures Requests(a + b) == Requests(a) + Requests(b)
    decreases |a|
  {
    if |a| > 0 {
      assert (a + b)[1..] == a[1..] + b;
      RequestsAppend(a[1..], b);
    } else {
      assert a + b == b;
    }
  }

  /** The reports and requests of a single effect. */
  lemma EffectsOfOne(e: Effect)
    ensures Reports([e]) == (if e.Report? then [e.event] else [])
    ensures Requests([e]) == (if e.Request? then [e.call] else [])
  {
    assert [e][1..] == [];
  }

  /** A request, then `t`, then possibly `done()`. */
  lemma EffectsAround(call: Call, t: seq<Effect>, done: bool)
    ensures var trace := [Request(call)] + t + (if done then [Report(Done)] else []);
      && Reports(trace) == Reports(t) + (if done then [Done] else [])
      && Requests(trace) == [call] + Requests(t)
  {
    var tail := if done then [Report(Done)] else [];
    EffectsOfOne(Request(call));
    EffectsOfOne(Report(Done));
    ReportsAppend([Request(call)], t);
    RequestsAppend([Request(call)], t);
    ReportsAppend([Request(call)] + t, tail);
    RequestsAppend([Request(call)] + t, tail);
  }

  // ------------------------------------------------------------ event gate

  /** The ref gate of `handlePushEvent`: only branch refs are handled, and the
      branch is the ref without its first 11 characters. */
  function BranchOf(ref: string): (r: Result<string, Error>)
    ensures r.Success? <==> StartsWith(ref, BranchRefPrefix)
    ensures r.Success? ==> BranchRefPrefix + r.value == ref
    ensures r.Failure? ==> r.error == PlainError("unsupported ref: " + ref)
  {
    if StartsWith(ref, BranchRefPrefix) then
      assert |BranchRefPrefix| == 11;
      assert ref == ref[..11] + ref[11..];
      Success(ref[11..])
    else
      Failure(PlainError("unsupported ref: " + ref))
  }

  // ------------------------------------------------- mergeability retries

  function Min(a: int, b: int): int {
    if a <= b then a else b
  }

  /** The delay before the refetch with index `attempt`: a floor of
      `min(attempt, 4)` seconds plus up to one second of jitter. */
  function DelayMillis(attempt: nat, jitter: JitterMs): (d: int)
    ensures Min(attempt, 4) * 1000 <= d <= (Min(attempt, 4) + 1) * 1000
    ensures 1 <= attempt ==> 1000 <= d <= 5000
  {
    Min(attempt, 4) * 1000 + jitter
  }

  /** The variables of the point query, fixed before the retry loop starts. */
  datatype PullRequestQuery = PullRequestQuery(repo: RepoRef, number: nat)

  function RepoOf(pr: PullRequest): RepoRef {
    RepoRef(pr.repository.ownerLogin, pr.repository.name)
  }

  function QueryOf(pr: PullRequest): PullRequestQuery {
    PullRequestQuery(RepoOf(pr), pr.number)
  }

  /** The outcome of resolving a pull request's mergeable state: the trace and
      the last snapshot seen, or the error of a failed refetch. */
  datatype Resolution = Resolution(trace: seq<Effect>, result: Result<PullRequest, Error>)

  /** The retry loop of `resolveUnknownMergeable`, entered with `pr` as the
      current snapshot and `attempt` as the loop counter. */
  function ResolveFrom(client: Client, random: Random, q: PullRequestQuery, pr: PullRequest, attempt: nat): Resolution
    requires 1 <= attempt <= AttemptLimit
    decreases AttemptLimit - attempt
  {
    if pr.mergeable == UnknownState && attempt < AttemptLimit then
      var step := [Sleep(DelayMillis(attempt, random(q.number, attempt))), Request(FetchPullRequest(q.repo, q.number))];
      match client.pullRequest(q.repo, q.number, attempt)
      case Failure(e) => Resolution(step, Failure(e))
      case Success(next) =>
        var rest := ResolveFrom(client, random, q, next, attempt + 1);
        Resolution(step + rest.trace, rest.result)
    else
      Resolution([], Success(pr))
  }

  /** `resolveUnknownMergeable(pr)`. */
  function Resolve(client: Client, random: Random, pr: PullRequest): Resolution {
    ResolveFrom(client, random, QueryOf(pr), pr, 1)
  }

  /** `n` rounds of the retry loop starting at refetch index `from`: a sleep,
      then a point query with the original query variables. */
  function RefetchSteps(random: Random, q: PullRequestQuery, from: nat, n: nat): (t: seq<Effect>)
    ensures |t| == 2 * n
    decreases n
  {
    if n == 0 then [] else
      var round := [Sleep(DelayMillis(from, random(q.number, from))), Request(FetchPullRequest(q.repo, q.number))];
      round + RefetchSteps(random, q, from + 1, n - 1)
  }

  /** The retry loop's trace is a whole number of rounds, at most as many as
      the attempts left, and each round is a sleep followed by the point query
      with the ORIGINAL owner, repository and number. */
  lemma {:induction false} ResolveFromShape(client: Client, random: Random, q: PullRequestQuery, pr: PullRequest, attempt: nat)
    requires 1 <= attempt <= AttemptLimit
    ensures var r := ResolveFrom(client, random, q, pr, attempt);
      && |r.trace| % 2 == 0
      && |r.trace| / 2 <= AttemptLimit - attempt
      && r.trace == RefetchSteps(random, q, attempt, |r.trace| / 2)
    decreases AttemptLimit - attempt
  {
    if pr.mergeable == UnknownState && attempt < AttemptLimit {
      var reply := client.pullRequest(q.repo, q.number, attempt);
      if reply.Success? {
        ResolveFromShape(client, random, q, reply.value, attempt + 1);
        var rest := ResolveFrom(client, random, q, reply.value, attempt + 1);
        assert |rest.trace| / 2 + 1 == (|rest.trace| + 2) / 2;
      }
    }
  }

  /** Every reply of the retry loop but the last was a success still UNKNOWN
      (round `k - attempt` of the trace is the one of refetch index `k`). */
  lemma {:induction false} ResolveFromReplies(client: Client, random: Random, q: PullRequestQuery, pr: PullRequest, attempt: nat)
    requires 1 <= attempt <= AttemptLimit
    ensures var r := ResolveFrom(client, random, q, pr, attempt);
      && (pr.mergeable != UnknownState ==> r == Resolution([], Success(pr)))
      && (|r.trace| > 0 ==> pr.mergeable == UnknownState)
      && (forall k :: attempt <= k && 2 * (k - attempt) + 2 < |r.trace| ==>
            client.pullRequest(q.repo, q.number, k).Success? &&
            client.pullRequest(q.repo, q.number, k).value.mergeable == UnknownState)
    decreases AttemptLimit - attempt
  {
    if pr.mergeable == UnknownState && attempt < AttemptLimit {
      var reply := client.pullRequest(q.repo, q.number, attempt);
      if reply.Success? {
        ResolveFromReplies(client, random, q, reply.value, attempt + 1);
      }
    }
  }

  /** The retry loop returns its last reply (or the first snapshot if it made
      no refetch); a success still UNKNOWN means the attempts ran out, and a
      failure comes from a refetch. */
  lemma {:induction false} ResolveFromResult(client: Client, random: Random, q: PullRequestQuery, pr: PullRequest, attempt: nat)
    requires 1 <= attempt <= AttemptLimit
    ensures var r := ResolveFrom(client, random, q, pr, attempt);
      && (|r.trace| == 0 ==> r.result == Success(pr))
      && (forall k :: attempt <= k && 2 * (k - attempt) + 2 == |r.trace| ==>
            r.result == client.pullRequest(q.repo, q.number, k))
      && (r.result.Success? && r.result.value.mergeable == UnknownState ==> 2 * (AttemptLimit - attempt) == |r.trace|)
      && (r.result.Failure? ==> |r.trace| > 0)
    decreases AttemptLimit - attempt
  {
    if pr.mergeable == UnknownState && attempt < AttemptLimit {
      var reply := client.pullRequest(q.repo, q.number, attempt);
      if reply.Success? {
        ResolveFromResult(client, random, q, reply.value, attempt + 1);
      }
    }
  }

  /** `resolveUnknownMergeable`: the for-loop that re-fetches the pull request
      while its state is UNKNOWN, at most nine times, sleeping before each refetch. */
  method ResolveUnknownMergeable(client: Client, random: Random, pullRequest: PullRequest)
    returns (trace: seq<Effect>, resolved: Result<PullRequest, Error>)
    ensures Resolution(trace, resolved) == Resolve(client, random, pullRequest)
  {
    var q := QueryOf(pullRequest);
    var current := pullRequest;
    var attempt: nat := 1;
    trace := [];
    while current.mergeable == UnknownState && attempt < AttemptLimit
      invariant 1 <= attempt <= AttemptLimit
      invariant var rest := ResolveFrom(client, random, q, current, attempt);
        Resolve(client, random, pullRequest) == Resolution(trace + rest.trace, rest.result)
      decreases AttemptLimit - attempt
    {
      attempt := attempt + 1;
      var delayMillis := DelayMillis(attempt - 1, random(q.number, attempt - 1));
      var step := [Sleep(delayMillis), Request(FetchPullRequest(q.repo, q.number))];
      var reply := client.pullRequest(q.repo, q.number, attempt - 1);
      if reply.Failure? {
        trace := trace + step;
        resolved := Failure(reply.error);
        return;
      }
      ghost var rest := ResolveFrom(client, random, q, reply.value, attempt);
      assert (trace + step) + rest.trace == trace + (step + rest.trace);
      trace := trace + step;
      current := reply.value;
    }
    resolved := Success(current);
    assert trace + [] == trace;
  }

  /** The retry loop never makes more than nine refetches, and makes none when
      the first snapshot is not UNKNOWN. */
  lemma ResolveBounded(client: Client, random: Random, pr: PullRequest)
    ensures var r := Resolve(client, random, pr);
      && |r.trace| == 2 * (|r.trace| / 2)
      && |r.trace| / 2 <= 9
      && r.trace == RefetchSteps(random, QueryOf(pr), 1, |r.trace| / 2)
      && (pr.mergeable != UnknownState ==> r.trace == [] && r.result == Success(pr))
  {
    ResolveFromShape(client, random, QueryOf(pr), pr, 1);
  }

  /** Round `i` of the retry loop starting at index `from` sleeps for the
      delay of refetch index `from + i` and then queries the original variables. */
  lemma {:induction false} RefetchStepsAt(random: Random, q: PullRequestQuery, from: nat, n: nat, i: nat)
    requires i < n
    ensures RefetchSteps(random, q, from, n)[2 * i] == Sleep(DelayMillis(from + i, random(q.number, from + i)))
    ensures RefetchSteps(random, q, from, n)[2 * i + 1] == Request(FetchPullRequest(q.repo, q.number))
    decreases n
  {
    if i > 0 {
      RefetchStepsAt(random, q, from + 1, n - 1, i - 1);
    }
  }

  /** Every request of the retry loop is the point query with the original
      variables, every sleep lasts between one and five seconds, and the loop
      reports nothing. */
  lemma {:induction false} RefetchStepsEffects(random: Random, q: PullRequestQuery, from: nat, n: nat)
    requires from >= 1
    ensures var t := RefetchSteps(random, q, from, n);
      && Requests(t) == seq(n, _ => FetchPullRequest(q.repo, q.number))
      && Reports(t) == []
      && forall e :: e in t && e.Sleep? ==> 1000 <= e.millis <= 5000
    decreases n
  {
    var t := RefetchSteps(random, q, from, n);
    if n > 0 {
      RefetchStepsEffects(random, q, from + 1, n - 1);
      var head := [Sleep(DelayMillis(from, random(q.number, from))), Request(FetchPullRequest(q.repo, q.number))];
      var tail := RefetchSteps(random, q, from + 1, n - 1);
      RequestsAppend(head, tail);
      ReportsAppend(head, tail);
      assert Requests(head) == [FetchPullRequest(q.repo, q.number)];
      assert Reports(head) == [];
      assert Requests(t) == seq(n, _ => FetchPullRequest(q.repo, q.number));
    }
  }

  /** With the replies UNKNOWN, UNKNOWN and then MERGEABLE, the loop makes
      exactly two refetches and returns the MERGEABLE snapshot. */
  lemma RetriesUntilMergeable(client: Client, random: Random, pr: PullRequest)
    requires pr.mergeable == UnknownState
    requires var q := QueryOf(pr);
      && client.pullRequest(q.repo, q.number, 1).Success?
      && client.pullRequest(q.repo, q.number, 1).value.mergeable == UnknownState
      && client.pullRequest(q.repo, q.number, 2).Success?
      && client.pullRequest(q.repo, q.number, 2).value.mergeable == MergeableState
    ensures var q := QueryOf(pr); var r := Resolve(client, random, pr);
      && r.trace == RefetchSteps(random, q, 1, 2)
      && r.result == client.pullRequest(q.repo, q.number, 2)
  {
    var q := QueryOf(pr);
    var p1 := client.pullRequest(q.repo, q.number, 1).value;
    var p2 := client.pullRequest(q.repo, q.number, 2).value;
    assert ResolveFrom(client, random, q, p2, 3) == Resolution([], Success(p2));
  }

  // ------------------------------------------------------------- awaitAll

  /** How one unit of work settled: it returned a value, or threw a `Problem`. */
  datatype Settled = Fulfilled(value: Value) | Rejected(reason: Problem)

  /** The own fields `{...v}` copies out of a value; the context values that
      reach it are objects or `undefined`. */
  function SpreadFields(v: Value): map<string, Value> {
    if v.Obj? then v.fields else map[]
  }

  /** `error.cause`, which reads `undefined` when no cause was given. */
  function CauseValue(p: Problem): Value {
    if p.cause.Some? then p.cause.value else Undefined
  }

  /** The result entry `awaitAll` keeps for one outcome: the value, or the
      failed unit's context `{...opts[errorProp], error: cause}`. */
  function ResultEntry(o: Settled, errorProp: string): Value {
    match o
    case Fulfilled(v) => v
    case Rejected(p) =>
      Obj(SpreadFields(if errorProp in p.opts then p.opts[errorProp] else Undefined)["error" := CauseValue(p)])
  }

  /** A unit that throws `new Problem(message, {cause, [errorProp]: context})`
      with an object context leaves the entry `{...context, error: cause}`. */
  lemma RejectedEntry(message: string, cause: Value, errorProp: string, context: map<string, Value>)
    requires errorProp != "cause"
    ensures ResultEntry(Rejected(NewProblem(message, Some(map["cause" := cause, errorProp := Obj(context)]))), errorProp)
            == Obj(context["error" := cause])
  {
    var p := NewProblem(message, Some(map["cause" := cause, errorProp := Obj(context)]));
    assert errorProp in p.opts && p.opts[errorProp] == Obj(context);
  }

  function Entries(outcomes: seq<Settled>, errorProp: string): (r: seq<Value>) {
    seq(|outcomes|, i requires 0 <= i < |outcomes| => ResultEntry(outcomes[i], errorProp))
  }

  /** The messages of the rejected outcomes. */
  function RejectedMessages(outcomes: seq<Settled>): seq<string>
    decreases |outcomes|
  {
    if |outcomes| == 0 then []
    else
      var last := outcomes[|outcomes| - 1];
      RejectedMessages(outcomes[..|outcomes| - 1]) + (if last.Rejected? then [last.reason.message] else [])
  }

  /** The rejected messages of a concatenation are those of its parts, in
      order: taken with the singleton case, this says `RejectedMessages` lists
      every rejection's message once, in outcome order. */
  lemma {:induction false} RejectedMessagesAppend(a: seq<Settled>, b: seq<Settled>)
    ensures RejectedMessages(a + b) == RejectedMessages(a) + RejectedMessages(b)
    ensures RejectedMessages([]) == []
    decreases |b|
  {
    if |b| == 0 {
      assert a + b == a;
    } else {
      assert (a + b)[..|a + b| - 1] == a + b[..|b| - 1];
      RejectedMessagesAppend(a, b[..|b| - 1]);
    }
  }

  lemma RejectedMessagesSingleton(o: Settled)
    ensures RejectedMessages([o]) == if o.Rejected? then [o.reason.message] else []
  {
    assert [o][..0] == [];
  }

  /** There is a rejected message exactly when some outcome was rejected. */
  lemma {:induction false} RejectedMessagesEmptyIff(outcomes: seq<Settled>)
    ensures |RejectedMessages(outcomes)| > 0 <==> exists i :: 0 <= i < |outcomes| && outcomes[i].Rejected?
    decreases |outcomes|
  {
    if |outcomes| > 0 {
      var init := outcomes[..|outcomes| - 1];
      RejectedMessagesEmptyIff(init);
      if exists i :: 0 <= i < |init| && init[i].Rejected? {
        var i :| 0 <= i < |init| && init[i].Rejected?;
        assert outcomes[i] == init[i];
      }
      if exists i :: 0 <= i < |outcomes| && outcomes[i].Rejected? {
        var i :| 0 <= i < |outcomes| && outcomes[i].Rejected?;
        if i < |init| {
          assert init[i] == outcomes[i];
        }
      }
    }
  }

  /** What `awaitAll(promises, errorProp, resultsProp)` settles to once every
      promise has settled: all values, or a Problem joining the rejection
      messages with ", " that carries every entry under `resultsProp`. */
  function Aggregated(outcomes: seq<Settled>, errorProp: string, resultsProp: string): (r: Result<seq<Value>, Problem>)
    ensures r.Failure? <==> exists i :: 0 <= i < |outcomes| && outcomes[i].Rejected?
    ensures r.Success? ==> |r.value| == |outcomes| && forall i :: 0 <= i < |outcomes| ==> r.value[i] == outcomes[i].value
    ensures r.Failure? ==> r.error.message == Join(RejectedMessages(outcomes), ", ")
    ensures r.Failure? && resultsProp != "cause" ==>
      r.error.cause == None && r.error.opts == map[resultsProp := Arr(Entries(outcomes, errorProp))]
  {
    RejectedMessagesEmptyIff(outcomes);
    var messages := RejectedMessages(outcomes);
    var results := Entries(outcomes, errorProp);
    if |messages| > 0 then Failure(NewProblem(Join(messages, ", "), Some(map[resultsProp := Arr(results)])))
    else Success(results)
  }

  /** `awaitAll`: the loop over the settled outcomes that collects one result
      entry per outcome and the message of every rejection. */
  method AwaitAll(outcomes: seq<Settled>, errorProp: string, resultsProp: string)
    returns (r: Result<seq<Value>, Problem>)
    ensures r == Aggregated(outcomes, errorProp, resultsProp)
  {
    var results: seq<Value> := [];
    var errorMessages: seq<string> := [];
    for i := 0 to |outcomes|
      invariant results == Entries(outcomes[..i], errorProp)
      invariant errorMessages == RejectedMessages(outcomes[..i])
    {
      assert outcomes[..i + 1][..i] == outcomes[..i];
      match outcomes[i]
      case Fulfilled(v) =>
        results := results + [v];
      case Rejected(error) =>
        errorMessages := errorMessages + [error.message];
        var context := if errorProp in error.opts then error.opts[errorProp] else Undefined;
        results := results + [Obj(SpreadFields(context)["error" := CauseValue(error)])];
    }
    assert outcomes[..|outcomes|] == outcomes;
    if |errorMessages| > 0 {
      var opts := map[resultsProp := Arr(results)];
      r := Failure(NewProblem(Join(errorMessages, ", "), Some(opts)));
    } else {
      r := Success(results);
    }
  }

  // ------------------------------------------------------ rerun triggering

  /** The run filter of `triggerReruns`: the run's name is the target
      workflow's, and its associated pull requests include this one. */
  predicate Selects(run: WorkflowRun, workflowName: string, number: nat) {
    run.name == Some(workflowName) && run.pullRequests.Some? && number in run.pullRequests.value
  }

  function SelectRuns(runs: seq<WorkflowRun>, workflowName: string, number: nat): (s: seq<WorkflowRun>)
    ensures forall run :: run in s <==> run in runs && Selects(run, workflowName, number)
    ensures |s| <= |runs|
    decreases |runs|
  {
    if |runs| == 0 then []
    else
      var rest := SelectRuns(runs[1..], workflowName, number);
      assert forall run :: run in runs <==> run == runs[0] || run in runs[1..];
      if Selects(runs[0], workflowName, number) then [runs[0]] + rest else rest
  }

  /** The filter keeps the listing order: selecting from a concatenation
      selects from each part and concatenates the selections. */
  lemma {:induction false} SelectRunsAppend(a: seq<WorkflowRun>, b: seq<WorkflowRun>, workflowName: string, number: nat)
    ensures SelectRuns(a + b, workflowName, number) == SelectRuns(a, workflowName, number) + SelectRuns(b, workflowName, number)
    decreases |a|
  {
    if |a| == 0 {
      assert a + b == b;
    } else {
      assert (a + b)[0] == a[0];
      assert (a + b)[1..] == a[1..] + b;
      SelectRunsAppend(a[1..], b, workflowName, number);
    }
  }

  /** A unit of fanned-out work: its trace and how it settled. */
  datatype UnitOfWork = UnitOfWork(trace: seq<Effect>, outcome: Settled)

  /** Several units run one after another: their traces in order, and one outcome per unit. */
  datatype Fanout = Fanout(trace: seq<Effect>, outcomes: seq<Settled>)

  function RerunFailureMessage(run: WorkflowRun, cause: Error): string {
    "failed to re-run workflow run " + NatToString(run.id) + ": " + cause.Message()
  }

  /** A refused re-run's message names one run id: two messages are equal
      only for the same id and the same cause message. */
  lemma RerunFailureMessageInjective(r: WorkflowRun, t: WorkflowRun, e: Error, f: Error)
    requires RerunFailureMessage(r, e) == RerunFailureMessage(t, f)
    ensures r.id == t.id && e.Message() == f.Message()
  {
    NatToStringBetween("failed to re-run workflow run ", r.id, t.id, ": ", e.Message(), f.Message());
  }

  /** `triggerRerun` with its `catch`: request the re-run, report it once the
      request succeeded, or reject with a Problem naming the run. */
  function TriggerRerun(client: Client, pr: PullRequest, run: WorkflowRun): UnitOfWork {
    var request := Request(RerunWorkflowRun(RepoOf(pr), run.id));
    match client.rerun(RepoOf(pr), run.id)
    case Success(_) => UnitOfWork([request, Report(RerunTriggered(pr, run))], Fulfilled(Undefined))
    case Failure(e) =>
      UnitOfWork([request], Rejected(NewProblem(RerunFailureMessage(run, e),
                                                Some(map["cause" := Thrown(e), "run" := RunValue(run)]))))
  }

  function TriggerEach(client: Client, pr: PullRequest, runs: seq<WorkflowRun>): (f: Fanout)
    ensures |f.outcomes| == |runs|
    decreases |runs|
  {
    if |runs| == 0 then Fanout([], [])
    else
      var u := TriggerRerun(client, pr, runs[0]);
      var rest := TriggerEach(client, pr, runs[1..]);
      Fanout(u.trace + rest.trace, [u.outcome] + rest.outcomes)
  }

  /** `triggerReruns`: list the pull request's runs, keep the matching ones,
      and re-run each of them, or report that none matched. */
  function TriggerReruns(client: Client, workflowName: string, pr: PullRequest): Step {
    var listing := Request(ListWorkflowRuns(RepoOf(pr), "pull_request", pr.headRefName));
    match client.workflowRuns(RepoOf(pr), pr.headRefName)
    case Failure(e) => Step([listing], Failure(e))
    case Success(runs) =>
      var selected := SelectRuns(runs, workflowName, pr.number);
      if |selected| == 0 then Step([listing, Report(NoRunsFound(pr))], Success(()))
      else
        var f := TriggerEach(client, pr, selected);
        match Aggregated(f.outcomes, "run", "triggeredReruns")
        case Success(_) => Step([listing] + f.trace, Success(()))
        case Failure(p) => Step([listing] + f.trace, Failure(ProblemError(p)))
  }

  // ---------------------------------------------------- per pull request

  /** The mergeable switch: UNKNOWN falls through to MERGEABLE. */
  predicate RoutesToReruns(mergeable: string) {
    mergeable == UnknownState || mergeable == MergeableState
  }

  /** The async body run for one discovered pull request, before its `catch`. */
  function ReconcileBody(client: Client, random: Random, workflowName: string, pr: PullRequest): Step {
    var r := Resolve(client, random, pr);
    match r.result
    case Failure(e) => Step(r.trace, Failure(e))
    case Success(resolved) =>
      if RoutesToReruns(resolved.mergeable) then
        var t := TriggerReruns(client, workflowName, resolved);
        Step(r.trace + t.trace, t.result)
      else
        Step(r.trace + [Report(PullRequestIgnored(resolved))], Success(()))
  }

  function PullRequestFailureMessage(pr: PullRequest, cause: Error): string {
    "failed to trigger runs for PR #" + NatToString(pr.number) + ": " + cause.Message()
  }

  /** A unit's rejection message names one pull request number: two messages
      are equal only for the same number and the same cause message. */
  lemma PullRequestFailureMessageInjective(p: PullRequest, q: PullRequest, e: Error, f: Error)
    requires PullRequestFailureMessage(p, e) == PullRequestFailureMessage(q, f)
    ensures p.number == q.number && e.Message() == f.Message()
  {
    NatToStringBetween("failed to trigger runs for PR #", p.number, q.number, ": ", e.Message(), f.Message());
  }

  /** The unit of work for one discovered pull request, with its `catch`,
      which names the pull request as it was discovered. */
  function Reconcile(client: Client, random: Random, workflowName: string, pr: PullRequest): UnitOfWork {
    var body := ReconcileBody(client, random, workflowName, pr);
    match body.result
    case Success(_) => UnitOfWork(body.trace, Fulfilled(Undefined))
    case Failure(e) =>
      UnitOfWork(body.trace, Rejected(NewProblem(PullRequestFailureMessage(pr, e),
                                                 Some(map["cause" := Thrown(e), "pullRequest" := PullRequestValue(pr)]))))
  }

  function ReconcileAll(client: Client, random: Random, workflowName: string, prs: seq<PullRequest>): (f: Fanout)
    ensures |f.outcomes| == |prs|
    decreases |prs|
  {
    if |prs| == 0 then Fanout([], [])
    else
      var u := Reconcile(client, random, workflowName, prs[0]);
      var rest := ReconcileAll(client, random, workflowName, prs[1..]);
      Fanout(u.trace + rest.trace, [u.outcome] + rest.outcomes)
  }

  // -------------------------------------------------------------- the run

  /** `handlePushEvent`: gate the ref, list the open pull requests whose base
      is the pushed branch, reconcile each, aggregate, and report `done()`
      only if the aggregation succeeded. */
  function HandlePushEvent(client: Client, random: Random, workflowName: string, ref: string, repository: Repository): Step {
    match BranchOf(ref)
    case Failure(e) => Step([], Failure(e))
    case Success(branch) =>
      var repo := RepoRef(repository.ownerLogin, repository.name);
      var listing := Request(ListOpenPullRequests(repo, branch));
      match client.openPullRequests(repo, branch)
      case Failure(e) => Step([listing], Failure(e))
      case Success(prs) =>
        var f := ReconcileAll(client, random, workflowName, prs);
        match Aggregated(f.outcomes, "pullRequest", "pullRequests")
        case Success(_) => Step([listing] + f.trace + [Report(Done)], Success(()))
        case Failure(p) => Step([listing] + f.trace, Failure(ProblemError(p)))
  }

  /** `Action.run`: only push events are handled. */
  function Run(ctx: Context, client: Client, random: Random): Step {
    if ctx.eventName == PushEventName then
      HandlePushEvent(client, random, ctx.workflowName, ctx.ref, ctx.repository)
    else
      Step([], Failure(PlainError("unsupported event: " + ctx.eventName)))
  }

  // ------------------------------------------------- properties: reruns

  /** The run ids of the runs, as re-run requests. */
  function RerunCalls(repo: RepoRef, runs: seq<WorkflowRun>): (calls: seq<Call>)
    ensures |calls| == |runs|
    decreases |runs|
  {
    if |runs| == 0 then [] else [RerunWorkflowRun(repo, runs[0].id)] + RerunCalls(repo, runs[1..])
  }

  /** A `rerunTriggered` notification for each run whose re-run request the client accepted, in order. */
  function AcceptedReports(client: Client, pr: PullRequest, runs: seq<WorkflowRun>): seq<Event>
    decreases |runs|
  {
    if |runs| == 0 then []
    else
      (if client.rerun(RepoOf(pr), runs[0].id).Success? then [RerunTriggered(pr, runs[0])] else [])
        + AcceptedReports(client, pr, runs[1..])
  }

  /** The failure message of each run whose re-run request the client refused, in order. */
  function RefusedMessages(client: Client, pr: PullRequest, runs: seq<WorkflowRun>): seq<string>
    decreases |runs|
  {
    if |runs| == 0 then []
    else
      var reply := client.rerun(RepoOf(pr), runs[0].id);
      (if reply.Failure? then [RerunFailureMessage(runs[0], reply.error)] else [])
        + RefusedMessages(client, pr, runs[1..])
  }

  /** One re-run: the request comes first, `rerunTriggered` follows it only
      when the request succeeded, and a refused request rejects with a
      Problem whose cause is the client's error and whose context is the run. */
  lemma TriggerRerunEffects(client: Client, pr: PullRequest, run: WorkflowRun)
    ensures var u := TriggerRerun(client, pr, run); var reply := client.rerun(RepoOf(pr), run.id);
      && (reply.Success? ==> u.trace == [Request(RerunWorkflowRun(RepoOf(pr), run.id)), Report(RerunTriggered(pr, run))]
                             && u.outcome == Fulfilled(Undefined))
      && (reply.Failure? ==> u.trace == [Request(RerunWorkflowRun(RepoOf(pr), run.id))]
                             && u.outcome == Rejected(Problem(RerunFailureMessage(run, reply.error),
                                                              Some(Thrown(reply.error)), map["run" := RunValue(run)])))
  {
    var reply := client.rerun(RepoOf(pr), run.id);
    if reply.Failure? {
      var p := TriggerRerun(client, pr, run).outcome.reason;
      assert p.opts.Keys == {"run"};
    }
  }

  /** The re-runs of a pull request's matching runs: one request per run in
      order, a notification for each accepted one, and the failure
      messages of the refused ones. */
  lemma TriggerEachEffects(client: Client, pr: PullRequest, runs: seq<WorkflowRun>)
    ensures var f := TriggerEach(client, pr, runs);
      && Requests(f.trace) == RerunCalls(RepoOf(pr), runs)
      && Reports(f.trace) == AcceptedReports(client, pr, runs)
      && RejectedMessages(f.outcomes) == RefusedMessages(client, pr, runs)
  {
    TriggerEachRequests(client, pr, runs);
    TriggerEachReports(client, pr, runs);
    TriggerEachRefusals(client, pr, runs);
  }

  lemma {:induction false} TriggerEachRequests(client: Client, pr: PullRequest, runs: seq<WorkflowRun>)
    ensures Requests(TriggerEach(client, pr, runs).trace) == RerunCalls(RepoOf(pr), runs)
    decreases |runs|
  {
    if |runs| > 0 {
      var u := TriggerRerun(client, pr, runs[0]);
      var rest := TriggerEach(client, pr, runs[1..]);
      TriggerEachRequests(client, pr, runs[1..]);
      TriggerRerunEffects(client, pr, runs[0]);
      RequestsAppend(u.trace, rest.trace);
    }
  }

  lemma {:induction false} TriggerEachReports(client: Client, pr: PullRequest, runs: seq<WorkflowRun>)
    ensures Reports(TriggerEach(client, pr, runs).trace) == AcceptedReports(client, pr, runs)
    decreases |runs|
  {
    if |runs| > 0 {
      var u := TriggerRerun(client, pr, runs[0]);
      var rest := TriggerEach(client, pr, runs[1..]);
      TriggerEachReports(client, pr, runs[1..]);
      TriggerRerunEffects(client, pr, runs[0]);
      ReportsAppend(u.trace, rest.trace);
    }
  }

  lemma {:induction false} TriggerEachRefusals(client: Client, pr: PullRequest, runs: seq<WorkflowRun>)
    ensures RejectedMessages(TriggerEach(client, pr, runs).outcomes) == RefusedMessages(client, pr, runs)
    decreases |runs|
  {
    if |runs| > 0 {
      var u := TriggerRerun(client, pr, runs[0]);
      var rest := TriggerEach(client, pr, runs[1..]);
      TriggerEachRefusals(client, pr, runs[1..]);
      TriggerRerunEffects(client, pr, runs[0]);
      RejectedMessagesAppend([u.outcome], rest.outcomes);
      RejectedMessagesSingleton(u.outcome);
    }
  }

  /** The `i`-th re-run is fulfilled exactly when the client accepted the `i`-th request. */
  lemma {:induction false} TriggerEachOutcomes(client: Client, pr: PullRequest, runs: seq<WorkflowRun>)
    ensures var f := TriggerEach(client, pr, runs);
      forall i :: 0 <= i < |runs| ==> (f.outcomes[i].Fulfilled? <==> client.rerun(RepoOf(pr), runs[i].id).Success?)
    decreases |runs|
  {
    if |runs| > 0 {
      var rest := TriggerEach(client, pr, runs[1..]);
      TriggerEachOutcomes(client, pr, runs[1..]);
      var f := TriggerEach(client, pr, runs);
      forall i | 0 < i < |runs|
        ensures f.outcomes[i].Fulfilled? <==> client.rerun(RepoOf(pr), runs[i].id).Success?
      {
        assert f.outcomes[i] == rest.outcomes[i - 1];
        assert runs[1..][i - 1] == runs[i];
      }
    }
  }

  /** When every request was accepted, every run gets its notification, in
      listing order. (Which outcomes are fulfilled is `TriggerEachOutcomes`.) */
  lemma {:induction false} AllAcceptedReports(client: Client, pr: PullRequest, runs: seq<WorkflowRun>)
    requires forall i :: 0 <= i < |runs| ==> client.rerun(RepoOf(pr), runs[i].id).Success?
    ensures |AcceptedReports(client, pr, runs)| == |runs|
    ensures AcceptedReports(client, pr, runs) == seq(|runs|, i requires 0 <= i < |runs| => RerunTriggered(pr, runs[i]))
    decreases |runs|
  {
    if |runs| > 0 {
      assert client.rerun(RepoOf(pr), runs[0].id).Success?;
      forall i | 0 <= i < |runs[1..]| ensures client.rerun(RepoOf(pr), runs[1..][i].id).Success? {
        assert runs[1..][i] == runs[i + 1];
      }
      AllAcceptedReports(client, pr, runs[1..]);
    }
  }

  /** `triggerReruns`: the run listing is the first request; then exactly the
      runs the filter selects are re-run, in listing order. With no match it
      reports `noRunsFound` once and sends no re-run request; otherwise it
      reports `rerunTriggered` for each accepted request, and fails exactly
      when some request was refused, with the refused runs' messages joined. */
  lemma TriggerRerunsEffects(client: Client, workflowName: string, pr: PullRequest)
    ensures var t := TriggerReruns(client, workflowName, pr);
      var listing := ListWorkflowRuns(RepoOf(pr), "pull_request", pr.headRefName);
      var listed := client.workflowRuns(RepoOf(pr), pr.headRefName);
      && (listed.Failure? ==> Requests(t.trace) == [listing] && Reports(t.trace) == [] && t.result == Failure(listed.error))
      && (listed.Success? ==>
        var selected := SelectRuns(listed.value, workflowName, pr.number);
        && Requests(t.trace) == [listing] + RerunCalls(RepoOf(pr), selected)
        && (|selected| == 0 ==> Reports(t.trace) == [NoRunsFound(pr)] && t.result.Success?)
        && (|selected| > 0 ==> Reports(t.trace) == AcceptedReports(client, pr, selected))
        && (t.result.Success? <==> forall i :: 0 <= i < |selected| ==> client.rerun(RepoOf(pr), selected[i].id).Success?)
        && (t.result.Failure? ==>
              t.result.error.ProblemError? &&
              t.result.error.problem.message == Join(RefusedMessages(client, pr, selected), ", ")))
  {
    var listing := Request(ListWorkflowRuns(RepoOf(pr), "pull_request", pr.headRefName));
    var t := TriggerReruns(client, workflowName, pr);
    match client.workflowRuns(RepoOf(pr), pr.headRefName)
    case Failure(e) =>
      assert Requests([listing]) == [listing.call];
    case Success(runs) =>
      var selected := SelectRuns(runs, workflowName, pr.number);
      if |selected| == 0 {
        assert RerunCalls(RepoOf(pr), selected) == [];
        assert Requests([Report(NoRunsFound(pr))]) == [];
        assert Requests(t.trace) == [listing.call] + Requests([Report(NoRunsFound(pr))]);
        assert Reports(t.trace) == Reports([Report(NoRunsFound(pr))]);
      } else {
        var f := TriggerEach(client, pr, selected);
        TriggerEachEffects(client, pr, selected);
        TriggerEachOutcomes(client, pr, selected);
        RequestsAppend([listing], f.trace);
        ReportsAppend([listing], f.trace);
        var agg := Aggregated(f.outcomes, "run", "triggeredReruns");
        if agg.Success? {
          forall i | 0 <= i < |selected| ensures client.rerun(RepoOf(pr), selected[i].id).Success? {
            assert !f.outcomes[i].Rejected?;
          }
        } else {
          var i :| 0 <= i < |f.outcomes| && f.outcomes[i].Rejected?;
          assert !client.rerun(RepoOf(pr), selected[i].id).Success?;
        }
      }
  }

  // ------------------------------------------ properties: one pull request

  lemma ResolveReportsNothing(client: Client, random: Random, pr: PullRequest)
    ensures Reports(Resolve(client, random, pr).trace) == []
    ensures forall c :: c in Requests(Resolve(client, random, pr).trace) ==> c == FetchPullRequest(RepoOf(pr), pr.number)
  {
    ResolveBounded(client, random, pr);
    var r := Resolve(client, random, pr);
    RefetchStepsEffects(random, QueryOf(pr), 1, |r.trace| / 2);
  }

  /** The mergeable switch: a pull request that resolves to UNKNOWN or
      MERGEABLE goes on to `triggerReruns`; any other state yields exactly one
      `pullRequestIgnored` with the resolved snapshot and no run listing. */
  lemma ReconcileRoutes(client: Client, random: Random, workflowName: string, pr: PullRequest)
    ensures var r := Resolve(client, random, pr); var body := ReconcileBody(client, random, workflowName, pr);
      && (r.result.Failure? ==> body == Step(r.trace, Failure(r.result.error)))
      && (r.result.Success? && RoutesToReruns(r.result.value.mergeable) ==>
            var t := TriggerReruns(client, workflowName, r.result.value);
            body == Step(r.trace + t.trace, t.result) && Reports(body.trace) == Reports(t.trace))
      && (r.result.Success? && !RoutesToReruns(r.result.value.mergeable) ==>
            && Reports(body.trace) == [PullRequestIgnored(r.result.value)]
            && (forall c :: c in Requests(body.trace) ==> c == FetchPullRequest(RepoOf(pr), pr.number))
            && body.result.Success?)
  {
    var r := Resolve(client, random, pr);
    ResolveReportsNothing(client, random, pr);
    if r.result.Success? {
      var p := r.result.value;
      if RoutesToReruns(p.mergeable) {
        ReportsAppend(r.trace, TriggerReruns(client, workflowName, p).trace);
      } else {
        ReportsAppend(r.trace, [Report(PullRequestIgnored(p))]);
        RequestsAppend(r.trace, [Report(PullRequestIgnored(p))]);
      }
    }
  }

  /** A failed pull request rejects with a Problem named after the pull
      request AS DISCOVERED, whose cause is the error and whose context is the
      discovered pull request. */
  lemma ReconcileWrapsFailure(client: Client, random: Random, workflowName: string, pr: PullRequest)
    ensures var body := ReconcileBody(client, random, workflowName, pr);
      var u := Reconcile(client, random, workflowName, pr);
      && u.trace == body.trace
      && (u.outcome.Fulfilled? <==> body.result.Success?)
      && (body.result.Failure? ==>
            u.outcome.reason == Problem(PullRequestFailureMessage(pr, body.result.error),
                                        Some(Thrown(body.result.error)),
                                        map["pullRequest" := PullRequestValue(pr)]))
  {
    var body := ReconcileBody(client, random, workflowName, pr);
    if body.result.Failure? {
      assert Reconcile(client, random, workflowName, pr).outcome.reason.opts.Keys == {"pullRequest"};
    }
  }

  /** A pull request's unit never reports `done()`, and when it succeeds it
      has reported at least one notification. */
  lemma ReconcileReports(client: Client, random: Random, workflowName: string, pr: PullRequest)
    ensures var u := Reconcile(client, random, workflowName, pr);
      && Done !in Reports(u.trace)
      && (u.outcome.Fulfilled? ==> |Reports(u.trace)| > 0)
  {
    var r := Resolve(client, random, pr);
    ReconcileRoutes(client, random, workflowName, pr);
    ReconcileWrapsFailure(client, random, workflowName, pr);
    ResolveReportsNothing(client, random, pr);
    if r.result.Success? && RoutesToReruns(r.result.value.mergeable) {
      var p := r.result.value;
      TriggerRerunsEffects(client, workflowName, p);
      match client.workflowRuns(RepoOf(p), p.headRefName)
      case Failure(_) =>
      case Success(runs) =>
        var selected := SelectRuns(runs, workflowName, p.number);
        if |selected| > 0 {
          AcceptedReportsHaveNoDone(client, p, selected);
          if TriggerReruns(client, workflowName, p).result.Success? {
            AllAcceptedReports(client, p, selected);
          }
        }
    }
  }

  lemma {:induction false} AcceptedReportsHaveNoDone(client: Client, pr: PullRequest, runs: seq<WorkflowRun>)
    ensures Done !in AcceptedReports(client, pr, runs)
    decreases |runs|
  {
    if |runs| > 0 {
      AcceptedReportsHaveNoDone(client, pr, runs[1..]);
    }
  }

  // ------------------------------------------------- properties: the run

  /** The reports of all pull request units, in discovery order. */
  function UnitReports(client: Client, random: Random, workflowName: string, prs: seq<PullRequest>): seq<Event>
    decreases |prs|
  {
    if |prs| == 0 then []
    else Reports(Reconcile(client, random, workflowName, prs[0]).trace) + UnitReports(client, random, workflowName, prs[1..])
  }

  /** Fanning out over the discovered pull requests: outcome `i` is that of
      pull request `i`, no unit reports `done()`, and if every unit succeeded
      then a notification was reported for each of them. */
  lemma {:induction false} ReconcileAllEffects(client: Client, random: Random, workflowName: string, prs: seq<PullRequest>)
    ensures var f := ReconcileAll(client, random, workflowName, prs);
      && Reports(f.trace) == UnitReports(client, random, workflowName, prs)
      && Done !in Reports(f.trace)
      && (forall i :: 0 <= i < |prs| ==> f.outcomes[i] == Reconcile(client, random, workflowName, prs[i]).outcome)
      && ((forall i :: 0 <= i < |prs| ==> f.outcomes[i].Fulfilled?) ==> |Reports(f.trace)| >= |prs|)
    decreases |prs|
  {
    if |prs| > 0 {
      var u := Reconcile(client, random, workflowName, prs[0]);
      var rest := ReconcileAll(client, random, workflowName, prs[1..]);
      ReconcileAllEffects(client, random, workflowName, prs[1..]);
      ReconcileReports(client, random, workflowName, prs[0]);
      ReportsAppend(u.trace, rest.trace);
      var f := ReconcileAll(client, random, workflowName, prs);
      forall i | 0 < i < |prs| ensures f.outcomes[i] == Reconcile(client, random, workflowName, prs[i]).outcome {
        assert f.outcomes[i] == rest.outcomes[i - 1];
        assert prs[1..][i - 1] == prs[i];
      }
      if forall i :: 0 <= i < |prs| ==> f.outcomes[i].Fulfilled? {
        assert f.outcomes[0] == u.outcome;
        forall i | 0 <= i < |prs[1..]| ensures rest.outcomes[i].Fulfilled? {
          assert rest.outcomes[i] == f.outcomes[i + 1];
        }
      }
    }
  }

  /** A non-push event is rejected naming the event, before any request. */
  lemma RunRejectsUnsupportedEvent(ctx: Context, client: Client, random: Random)
    requires ctx.eventName != PushEventName
    ensures Run(ctx, client, random) == Step([], Failure(PlainError("unsupported event: " + ctx.eventName)))
  {
  }

  /** A push to a ref outside `refs/heads/` is rejected naming the ref, before any request. */
  lemma RunRejectsUnsupportedRef(ctx: Context, client: Client, random: Random)
    requires ctx.eventName == PushEventName && !StartsWith(ctx.ref, BranchRefPrefix)
    ensures Run(ctx, client, random) == Step([], Failure(PlainError("unsupported ref: " + ctx.ref)))
  {
  }

  /** A push to a branch first lists the open pull requests of the payload's
      repository whose base is that branch; if the listing fails, its error
      is the run's error and nothing else happens. */
  lemma RunListsPullRequestsOfPushedBranch(ctx: Context, client: Client, random: Random)
    requires ctx.eventName == PushEventName && StartsWith(ctx.ref, BranchRefPrefix)
    ensures var o := Run(ctx, client, random);
      var repo := RepoRef(ctx.repository.ownerLogin, ctx.repository.name);
      var branch := ctx.ref[11..];
      && BranchRefPrefix + branch == ctx.ref
      && |o.trace| > 0 && o.trace[0] == Request(ListOpenPullRequests(repo, branch))
      && (client.openPullRequests(repo, branch).Failure? ==>
            o == Step([Request(ListOpenPullRequests(repo, branch))], Failure(client.openPullRequests(repo, branch).error)))
  {
  }

  /** What a push run does once discovery returned `prs`: the listing, then
      the pull request units, then `done()` exactly when the aggregate
      succeeded. */
  lemma RunAfterDiscoveryShape(ctx: Context, client: Client, random: Random, prs: seq<PullRequest>)
    requires ctx.eventName == PushEventName && StartsWith(ctx.ref, BranchRefPrefix)
    requires client.openPullRequests(RepoRef(ctx.repository.ownerLogin, ctx.repository.name), ctx.ref[11..]) == Success(prs)
    ensures var f := ReconcileAll(client, random, ctx.workflowName, prs);
      var agg := Aggregated(f.outcomes, "pullRequest", "pullRequests");
      var listing := Request(ListOpenPullRequests(RepoRef(ctx.repository.ownerLogin, ctx.repository.name), ctx.ref[11..]));
      Run(ctx, client, random) ==
        if agg.Success? then Step([listing] + f.trace + [Report(Done)], Success(()))
        else Step([listing] + f.trace, Failure(ProblemError(agg.error)))
  {
  }

  /** The effects of a push run once discovery returned `prs`, in terms of
      the pull request units': the listing, the units' requests, and their
      notifications followed by `done()` exactly when every unit succeeded. */
  lemma RunAfterDiscoveryEffects(ctx: Context, client: Client, random: Random, prs: seq<PullRequest>)
    requires ctx.eventName == PushEventName && StartsWith(ctx.ref, BranchRefPrefix)
    requires client.openPullRequests(RepoRef(ctx.repository.ownerLogin, ctx.repository.name), ctx.ref[11..]) == Success(prs)
    ensures var o := Run(ctx, client, random);
      var f := ReconcileAll(client, random, ctx.workflowName, prs);
      var ok := forall i :: 0 <= i < |f.outcomes| ==> f.outcomes[i].Fulfilled?;
      && (o.result.Success? <==> ok)
      && Requests(o.trace) == [ListOpenPullRequests(RepoRef(ctx.repository.ownerLogin, ctx.repository.name), ctx.ref[11..])]
                              + Requests(f.trace)
      && Reports(o.trace) == Reports(f.trace) + (if ok then [Done] else [])
      && (ok ==> o.trace[|o.trace| - 1] == Report(Done))
  {
    var call := ListOpenPullRequests(RepoRef(ctx.repository.ownerLogin, ctx.repository.name), ctx.ref[11..]);
    var f := ReconcileAll(client, random, ctx.workflowName, prs);
    var ok := forall i :: 0 <= i < |f.outcomes| ==> f.outcomes[i].Fulfilled?;
    var agg := Aggregated(f.outcomes, "pullRequest", "pullRequests");
    assert agg.Success? == ok;
    RunAfterDiscoveryShape(ctx, client, random, prs);
    EffectsAround(call, f.trace, ok);
    if !ok {
      assert [Request(call)] + f.trace + [] == [Request(call)] + f.trace;
    }
  }

  /** After discovery: the run succeeds exactly when every pull request unit
      succeeded, and `done()` is reported exactly then, once, as the last
      effect and after all the units' notifications. */
  lemma RunReportsDoneIffAllSucceeded(ctx: Context, client: Client, random: Random, prs: seq<PullRequest>)
    requires ctx.eventName == PushEventName && StartsWith(ctx.ref, BranchRefPrefix)
    requires client.openPullRequests(RepoRef(ctx.repository.ownerLogin, ctx.repository.name), ctx.ref[11..]) == Success(prs)
    ensures var o := Run(ctx, client, random);
      && (o.result.Success? <==> forall i :: 0 <= i < |prs| ==> Reconcile(client, random, ctx.workflowName, prs[i]).outcome.Fulfilled?)
      && (Done in Reports(o.trace) <==> o.result.Success?)
      && (o.result.Success? ==>
            Reports(o.trace) == UnitReports(client, random, ctx.workflowName, prs) + [Done] && o.trace[|o.trace| - 1] == Report(Done))
      && (o.result.Failure? ==> Reports(o.trace) == UnitReports(client, random, ctx.workflowName, prs))
  {
    var f := ReconcileAll(client, random, ctx.workflowName, prs);
    RunAfterDiscoveryEffects(ctx, client, random, prs);
    ReconcileAllEffects(client, random, ctx.workflowName, prs);
  }

  /** A failed run's error is a Problem joining the failed units' messages,
      each of which names its pull request as discovered; its context holds
      one entry per unit, and a failed unit's entry is that pull request with
      its error. */
  lemma RunFailureNamesPullRequests(ctx: Context, client: Client, random: Random, prs: seq<PullRequest>)
    requires ctx.eventName == PushEventName && StartsWith(ctx.ref, BranchRefPrefix)
    requires client.openPullRequests(RepoRef(ctx.repository.ownerLogin, ctx.repository.name), ctx.ref[11..]) == Success(prs)
    ensures var o := Run(ctx, client, random);
      var f := ReconcileAll(client, random, ctx.workflowName, prs);
      o.result.Failure? ==>
        && o.result.error.ProblemError?
        && o.result.error.problem.message == Join(RejectedMessages(f.outcomes), ", ")
        && o.result.error.problem.opts == map["pullRequests" := Arr(Entries(f.outcomes, "pullRequest"))]
        && forall i :: 0 <= i < |prs| ==>
             var body := ReconcileBody(client, random, ctx.workflowName, prs[i]);
             && (f.outcomes[i].Rejected? <==> body.result.Failure?)
             && (body.result.Failure? ==>
                   && f.outcomes[i].reason.message == PullRequestFailureMessage(prs[i], body.result.error)
                   && Entries(f.outcomes, "pullRequest")[i] == Obj(PullRequestValue(prs[i]).fields["error" := Thrown(body.result.error)]))
  {
    var f := ReconcileAll(client, random, ctx.workflowName, prs);
    RunAfterDiscoveryShape(ctx, client, random, prs);
    ReconcileAllEffects(client, random, ctx.workflowName, prs);
    forall i | 0 <= i < |prs|
      ensures var body := ReconcileBody(client, random, ctx.workflowName, prs[i]);
        && (f.outcomes[i].Rejected? <==> body.result.Failure?)
        && (body.result.Failure? ==>
              && f.outcomes[i].reason.message == PullRequestFailureMessage(prs[i], body.result.error)
              && Entries(f.outcomes, "pullRequest")[i] == Obj(PullRequestValue(prs[i]).fields["error" := Thrown(body.result.error)]))
    {
      ReconcileWrapsFailure(client, random, ctx.workflowName, prs[i]);
    }
  }

  /** A run that stops before discovery, or whose discovery fails, reports nothing. */
  lemma RunReportsNothingBeforeDiscovery(ctx: Context, client: Client, random: Random)
    requires ctx.eventName != PushEventName || !StartsWith(ctx.ref, BranchRefPrefix) ||
      client.openPullRequests(RepoRef(ctx.repository.ownerLogin, ctx.repository.name), ctx.ref[11..]).Failure?
    ensures Reports(Run(ctx, client, random).trace) == []
    ensures Run(ctx, client, random).result.Failure?
  {
    var o := Run(ctx, client, random);
    if ctx.eventName == PushEventName && StartsWith(ctx.ref, BranchRefPrefix) {
      assert Reports(o.trace) == Reports([o.trace[0]]);
    }
  }

  /** After discovery, the first notification is `done()` exactly when the
      run succeeded with no pull request to reconcile. */
  lemma FirstReportIsDone(ctx: Context, client: Client, random: Random, prs: seq<PullRequest>)
    requires ctx.eventName == PushEventName && StartsWith(ctx.ref, BranchRefPrefix)
    requires client.openPullRequests(RepoRef(ctx.repository.ownerLogin, ctx.repository.name), ctx.ref[11..]) == Success(prs)
    ensures var o := Run(ctx, client, random);
      (|Reports(o.trace)| > 0 && Reports(o.trace)[0] == Done) <==> o.result.Success? && prs == []
  {
    var f := ReconcileAll(client, random, ctx.workflowName, prs);
    RunAfterDiscoveryEffects(ctx, client, random, prs);
    ReconcileAllEffects(client, random, ctx.workflowName, prs);
    if |Reports(f.trace)| > 0 {
      assert Reports(f.trace)[0] in Reports(f.trace);
    }
    if prs == [] {
      assert f == Fanout([], []);
    }
  }

  /** Through the job log: "No pull requests found." is written exactly when
      the run succeeded and discovery found no pull request. */
  lemma NoPullRequestsLoggedOnlyWhenNoneFound(ctx: Context, client: Client, random: Random)
    ensures var o := Run(ctx, client, random);
      NoPullRequestsEntry in LogOf(Reports(o.trace)) <==>
        && o.result.Success?
        && client.openPullRequests(RepoRef(ctx.repository.ownerLogin, ctx.repository.name), ctx.ref[11..]) == Success([])
  {
    var o := Run(ctx, client, random);
    NoPullRequestsLoggedIff(Reports(o.trace));
    var repo := RepoRef(ctx.repository.ownerLogin, ctx.repository.name);
    if ctx.eventName == PushEventName && StartsWith(ctx.ref, BranchRefPrefix) && client.openPullRequests(repo, ctx.ref[11..]).Success? {
      FirstReportIsDone(ctx, client, random, client.openPullRequests(repo, ctx.ref[11..]).value);
    } else {
      RunReportsNothingBeforeDiscovery(ctx, client, random);
    }
  }
}
