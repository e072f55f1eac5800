/** The engine on the situations exercised by __tests__/action.test.ts. Each
    lemma fixes only the replies and fields the test relies on and leaves
    everything else arbitrary. */
module Scenarios {
  import opened Wrappers
  import opened Types
  import opened Text
  import opened Reporter
  import opened Action

  // ------------------------------------------------------------- helpers

  lemma ReportsOfPair(a: Effect, b: Effect)
    ensures Reports([a, b]) == Reports([a]) + Reports([b])
    ensures Requests([a, b]) == Requests([a]) + Requests([b])
  {
    ReportsAppend([a], [b]);
    RequestsAppend([a], [b]);
    assert [a] + [b] == [a, b];
  }

  /** Reports and requests of a refetch followed by a run listing. */
  lemma EffectsOfFour(t: seq<Effect>)
    requires |t| == 4 && t[0].Sleep? && t[1].Request? && t[2].Request? && t[3].Report?
    ensures Reports(t) == [t[3].event] && Requests(t) == [t[1].call, t[2].call]
  {
    var c := t[3..];
    assert c[1..] == [] && c[0] == t[3];
    assert Reports(c) == [t[3].event] && Requests(c) == [];
    assert t[2..][1..] == c && t[2..][0] == t[2];
    assert Reports(t[2..]) == [t[3].event] && Requests(t[2..]) == [t[2].call];
    assert t[1..][1..] == t[2..] && t[1..][0] == t[1];
    assert Reports(t[1..]) == [t[3].event] && Requests(t[1..]) == [t[1].call] + [t[2].call];
  }

  /** Reports and requests of a refetch followed by a report. */
  lemma EffectsOfThree(t: seq<Effect>)
    requires |t| == 3 && t[0].Sleep? && t[1].Request? && t[2].Report?
    ensures Reports(t) == [t[2].event] && Requests(t) == [t[1].call]
  {
    var c := t[2..];
    assert c[1..] == [] && c[0] == t[2];
    assert Reports(c) == [t[2].event] && Requests(c) == [];
    assert t[1..][1..] == c && t[1..][0] == t[1];
    assert Reports(t[1..]) == [t[2].event] && Requests(t[1..]) == [t[1].call];
  }

  lemma ReconcileAllCons(client: Client, random: Random, workflowName: string, pr: PullRequest, prs: seq<PullRequest>)
    ensures var u := Reconcile(client, random, workflowName, pr);
      var rest := ReconcileAll(client, random, workflowName, prs);
      ReconcileAll(client, random, workflowName, [pr] + prs) == Fanout(u.trace + rest.trace, [u.outcome] + rest.outcomes)
  {
    assert ([pr] + prs)[1..] == prs;
  }

  /** One more unit in front: its outcome, notifications and requests come first. */
  lemma ConsEffects(client: Client, random: Random, workflowName: string, pr: PullRequest, prs: seq<PullRequest>)
    ensures var f := ReconcileAll(client, random, workflowName, [pr] + prs);
      var u := Reconcile(client, random, workflowName, pr);
      var rest := ReconcileAll(client, random, workflowName, prs);
      && f.outcomes == [u.outcome] + rest.outcomes
      && Reports(f.trace) == Reports(u.trace) + Reports(rest.trace)
      && Requests(f.trace) == Requests(u.trace) + Requests(rest.trace)
  {
    var u := Reconcile(client, random, workflowName, pr);
    var rest := ReconcileAll(client, random, workflowName, prs);
    ReconcileAllCons(client, random, workflowName, pr, prs);
    ReportsAppend(u.trace, rest.trace);
    RequestsAppend(u.trace, rest.trace);
  }

  /** A single discovered pull request: the run's effects are the listing,
      that pull request's unit, and `done()` if the unit succeeded. */
  lemma RunOfOnePullRequest(ctx: Context, client: Client, random: Random, pr: PullRequest)
    requires ctx.eventName == PushEventName && StartsWith(ctx.ref, BranchRefPrefix)
    requires client.openPullRequests(RepoRef(ctx.repository.ownerLogin, ctx.repository.name), ctx.ref[11..]) == Success([pr])
    ensures var o := Run(ctx, client, random);
      var u := Reconcile(client, random, ctx.workflowName, pr);
      var listing := ListOpenPullRequests(RepoRef(ctx.repository.ownerLogin, ctx.repository.name), ctx.ref[11..]);
      && Requests(o.trace) == [listing] + Requests(u.trace)
      && (u.outcome.Fulfilled? ==> o.result == Success(()) && Reports(o.trace) == Reports(u.trace) + [Done])
      && (u.outcome.Rejected? ==>
            o.result.Failure? && o.result.error.Message() == u.outcome.reason.message
            && Reports(o.trace) == Reports(u.trace))
  {
    var u := Reconcile(client, random, ctx.workflowName, pr);
    var f := ReconcileAll(client, random, ctx.workflowName, [pr]);
    assert [pr][1..] == [];
    assert ReconcileAll(client, random, ctx.workflowName, []) == Fanout([], []);
    assert u.trace + [] == u.trace && [u.outcome] + [] == [u.outcome];
    assert f == Fanout(u.trace, [u.outcome]);
    RunAfterDiscoveryEffects(ctx, client, random, [pr]);
    if u.outcome.Rejected? {
      RunAfterDiscoveryShape(ctx, client, random, [pr]);
      RejectedMessagesSingleton(u.outcome);
    }
  }

  /** A push run whose units all succeed: the listing, the units' effects, then `done()`. */
  lemma RunOfSucceedingUnits(ctx: Context, client: Client, random: Random, prs: seq<PullRequest>,
                             reports: seq<Event>, requests: seq<Call>)
    requires ctx.eventName == PushEventName && StartsWith(ctx.ref, BranchRefPrefix)
    requires client.openPullRequests(RepoRef(ctx.repository.ownerLogin, ctx.repository.name), ctx.ref[11..]) == Success(prs)
    requires var f := ReconcileAll(client, random, ctx.workflowName, prs);
      && (forall i :: 0 <= i < |f.outcomes| ==> f.outcomes[i].Fulfilled?)
      && Reports(f.trace) == reports && Requests(f.trace) == requests
    ensures var o := Run(ctx, client, random);
      && o.result == Success(())
      && Reports(o.trace) == reports + [Done]
      && Requests(o.trace) == [ListOpenPullRequests(RepoRef(ctx.repository.ownerLogin, ctx.repository.name), ctx.ref[11..])] + requests
  {
    RunAfterDiscoveryEffects(ctx, client, random, prs);
  }

  // ---------------------------------------------------------- unit lemmas

  /** A pull request discovered in a state other than UNKNOWN or MERGEABLE is
      only reported as ignored. */
  lemma IgnoredUnit(client: Client, random: Random, workflowName: string, pr: PullRequest)
    requires pr.mergeable != UnknownState && pr.mergeable != MergeableState
    ensures var u := Reconcile(client, random, workflowName, pr);
      && u == UnitOfWork([Report(PullRequestIgnored(pr))], Fulfilled(Undefined))
      && Reports(u.trace) == [PullRequestIgnored(pr)] && Requests(u.trace) == []
  {
    assert [] + [Report(PullRequestIgnored(pr))] == [Report(PullRequestIgnored(pr))];
    EffectsOfOne(Report(PullRequestIgnored(pr)));
  }

  /** A pull request discovered MERGEABLE goes straight to `triggerReruns`:
      the unit's trace is that step's, and its failure is wrapped with the
      pull request's message. */
  lemma MergeableUnit(client: Client, random: Random, workflowName: string, pr: PullRequest)
    requires pr.mergeable == MergeableState
    ensures var u := Reconcile(client, random, workflowName, pr);
      var t := TriggerReruns(client, workflowName, pr);
      && u.trace == t.trace
      && (u.outcome.Fulfilled? <==> t.result.Success?)
      && (t.result.Failure? ==>
            u.outcome.Rejected? && u.outcome.reason.message == PullRequestFailureMessage(pr, t.result.error))
  {
    ResolveBounded(client, random, pr);
    var t := TriggerReruns(client, workflowName, pr);
    assert [] + t.trace == t.trace;
  }

  /** A MERGEABLE pull request without workflow runs lists them and reports that none were found. */
  lemma NoRunsUnit(client: Client, random: Random, workflowName: string, pr: PullRequest)
    requires pr.mergeable == MergeableState
    requires client.workflowRuns(RepoOf(pr), pr.headRefName) == Success([])
    ensures var u := Reconcile(client, random, workflowName, pr);
      && u == UnitOfWork([Request(ListWorkflowRuns(RepoOf(pr), "pull_request", pr.headRefName)), Report(NoRunsFound(pr))],
                         Fulfilled(Undefined))
      && Reports(u.trace) == [NoRunsFound(pr)]
      && Requests(u.trace) == [ListWorkflowRuns(RepoOf(pr), "pull_request", pr.headRefName)]
  {
    var t := TriggerReruns(client, workflowName, pr);
    assert [] + t.trace == t.trace;
    ReportsOfPair(Request(ListWorkflowRuns(RepoOf(pr), "pull_request", pr.headRefName)), Report(NoRunsFound(pr)));
    EffectsOfOne(Request(ListWorkflowRuns(RepoOf(pr), "pull_request", pr.headRefName)));
    EffectsOfOne(Report(NoRunsFound(pr)));
  }

  /** The retry loop on a pull request discovered UNKNOWN whose first
      refetch shows a settled state: one backoff sleep and one refetch. */
  lemma RefetchedOnce(client: Client, random: Random, pr: PullRequest, next: PullRequest)
    requires pr.mergeable == UnknownState
    requires client.pullRequest(RepoOf(pr), pr.number, 1) == Success(next)
    requires next.mergeable != UnknownState
    ensures Resolve(client, random, pr) ==
      Resolution([Sleep(DelayMillis(1, random(pr.number, 1))), Request(FetchPullRequest(RepoOf(pr), pr.number))], Success(next))
  {
    var fetch := [Sleep(DelayMillis(1, random(pr.number, 1))), Request(FetchPullRequest(RepoOf(pr), pr.number))];
    assert ResolveFrom(client, random, QueryOf(pr), next, 2) == Resolution([], Success(next));
    assert fetch + [] == fetch;
  }

  /** Refetched to MERGEABLE, and the refetched snapshot's head branch has no runs. */
  lemma RefetchedToNoRunsUnit(client: Client, random: Random, workflowName: string, pr: PullRequest, next: PullRequest)
    requires pr.mergeable == UnknownState
    requires client.pullRequest(RepoOf(pr), pr.number, 1) == Success(next)
    requires next.mergeable == MergeableState
    requires client.workflowRuns(RepoOf(next), next.headRefName) == Success([])
    ensures var u := Reconcile(client, random, workflowName, pr);
      && u.outcome.Fulfilled?
      && Reports(u.trace) == [NoRunsFound(next)]
      && Requests(u.trace) == [FetchPullRequest(RepoOf(pr), pr.number), ListWorkflowRuns(RepoOf(next), "pull_request", next.headRefName)]
  {
    RefetchedOnce(client, random, pr, next);
    var t := [Sleep(DelayMillis(1, random(pr.number, 1))), Request(FetchPullRequest(RepoOf(pr), pr.number))]
           + [Request(ListWorkflowRuns(RepoOf(next), "pull_request", next.headRefName)), Report(NoRunsFound(next))];
    assert Reconcile(client, random, workflowName, pr).trace == t;
    EffectsOfFour(t);
  }

  /** Refetched to a state that is ignored: the refetched snapshot is reported. */
  lemma RefetchedToIgnoredUnit(client: Client, random: Random, workflowName: string, pr: PullRequest, next: PullRequest)
    requires pr.mergeable == UnknownState
    requires client.pullRequest(RepoOf(pr), pr.number, 1) == Success(next)
    requires next.mergeable != UnknownState && next.mergeable != MergeableState
    ensures var u := Reconcile(client, random, workflowName, pr);
      && u.outcome.Fulfilled?
      && Reports(u.trace) == [PullRequestIgnored(next)]
      && Requests(u.trace) == [FetchPullRequest(RepoOf(pr), pr.number)]
  {
    RefetchedOnce(client, random, pr, next);
    var t := [Sleep(DelayMillis(1, random(pr.number, 1))), Request(FetchPullRequest(RepoOf(pr), pr.number))]
           + [Report(PullRequestIgnored(next))];
    assert Reconcile(client, random, workflowName, pr).trace == t;
    EffectsOfThree(t);
  }

  // --------------------------------------------- reports no pull requests

  /** With no open pull request the run succeeds after the one listing,
      reports only `done()`, and the job log says so. */
  lemma ReportsNoPullRequestsFound(ctx: Context, client: Client, random: Random)
    requires ctx.eventName == PushEventName && StartsWith(ctx.ref, BranchRefPrefix)
    requires client.openPullRequests(RepoRef(ctx.repository.ownerLogin, ctx.repository.name), ctx.ref[11..]) == Success([])
    ensures var o := Run(ctx, client, random);
      && o == Step([Request(ListOpenPullRequests(RepoRef(ctx.repository.ownerLogin, ctx.repository.name), ctx.ref[11..])),
                    Report(Done)], Success(()))
      && Reports(o.trace) == [Done]
      && LogOf(Reports(o.trace)) == [NoPullRequestsEntry]
  {
    var listing := Request(ListOpenPullRequests(RepoRef(ctx.repository.ownerLogin, ctx.repository.name), ctx.ref[11..]));
    RunAfterDiscoveryShape(ctx, client, random, []);
    assert [listing] + [] + [Report(Done)] == [listing, Report(Done)];
    ReportsOfPair(listing, Report(Done));
    EffectsOfOne(listing);
    EffectsOfOne(Report(Done));
    LogOfSnoc([], Done);
    assert [] + [Done] == [Done];
  }

  // ----------------------------------------------------- re-runs workflows

  /** Of three runs on the head branch, one of another workflow and one of
      the target workflow for another pull request are skipped; the third is
      re-run. */
  lemma RerunsMatchingRun(client: Client, workflowName: string, pr: PullRequest,
                          other: WorkflowRun, foreign: WorkflowRun, matching: WorkflowRun)
    requires client.workflowRuns(RepoOf(pr), pr.headRefName) == Success([other, foreign, matching])
    requires other.name != Some(workflowName)
    requires foreign.pullRequests.Some? && pr.number !in foreign.pullRequests.value
    requires Selects(matching, workflowName, pr.number)
    requires client.rerun(RepoOf(pr), matching.id).Success?
    ensures var t := TriggerReruns(client, workflowName, pr);
      && t.result.Success?
      && Requests(t.trace) == [ListWorkflowRuns(RepoOf(pr), "pull_request", pr.headRefName), RerunWorkflowRun(RepoOf(pr), matching.id)]
      && Reports(t.trace) == [RerunTriggered(pr, matching)]
  {
    var runs := [other, foreign, matching];
    assert [matching][1..] == [];
    assert SelectRuns([matching], workflowName, pr.number) == [matching];
    assert [foreign, matching][1..] == [matching];
    assert SelectRuns([foreign, matching], workflowName, pr.number) == [matching];
    assert runs[1..] == [foreign, matching];
    assert SelectRuns(runs, workflowName, pr.number) == [matching];
    TriggerRerunsEffects(client, workflowName, pr);
    assert RerunCalls(RepoOf(pr), [matching]) == [RerunWorkflowRun(RepoOf(pr), matching.id)];
    assert AcceptedReports(client, pr, [matching]) == [RerunTriggered(pr, matching)];
  }

  /** The re-runs test: one MERGEABLE pull request and the three runs above;
      the one re-run is reported, then `done()`. */
  lemma RerunsWorkflows(ctx: Context, client: Client, random: Random, pr: PullRequest,
                        other: WorkflowRun, foreign: WorkflowRun, matching: WorkflowRun)
    requires ctx.eventName == PushEventName && StartsWith(ctx.ref, BranchRefPrefix)
    requires client.openPullRequests(RepoRef(ctx.repository.ownerLogin, ctx.repository.name), ctx.ref[11..]) == Success([pr])
    requires pr.mergeable == MergeableState
    requires client.workflowRuns(RepoOf(pr), pr.headRefName) == Success([other, foreign, matching])
    requires other.name != Some(ctx.workflowName)
    requires foreign.pullRequests.Some? && pr.number !in foreign.pullRequests.value
    requires Selects(matching, ctx.workflowName, pr.number)
    requires client.rerun(RepoOf(pr), matching.id).Success?
    ensures var o := Run(ctx, client, random);
      && o.result == Success(())
      && Requests(o.trace) == [ListOpenPullRequests(RepoRef(ctx.repository.ownerLogin, ctx.repository.name), ctx.ref[11..]),
                               ListWorkflowRuns(RepoOf(pr), "pull_request", pr.headRefName),
                               RerunWorkflowRun(RepoOf(pr), matching.id)]
      && Reports(o.trace) == [RerunTriggered(pr, matching), Done]
  {
    RerunsMatchingRun(client, ctx.workflowName, pr, other, foreign, matching);
    MergeableUnit(client, random, ctx.workflowName, pr);
    RunOfOnePullRequest(ctx, client, random, pr);
  }

  // -------------------------------------------------------- collects errors

  /** The reports, refusals and requests of re-running two runs, the second refused. */
  lemma SecondOfTwoRefused(client: Client, pr: PullRequest, first: WorkflowRun, second: WorkflowRun, e: Error)
    requires client.rerun(RepoOf(pr), first.id).Success?
    requires client.rerun(RepoOf(pr), second.id) == Failure(e)
    ensures RerunCalls(RepoOf(pr), [first, second]) == [RerunWorkflowRun(RepoOf(pr), first.id), RerunWorkflowRun(RepoOf(pr), second.id)]
    ensures AcceptedReports(client, pr, [first, second]) == [RerunTriggered(pr, first)]
    ensures RefusedMessages(client, pr, [first, second]) == [RerunFailureMessage(second, e)]
  {
    var runs := [first, second];
    assert runs[1..] == [second];
    assert [second][1..] == [];
    assert AcceptedReports(client, pr, [second]) == [];
    assert RefusedMessages(client, pr, [second]) == [RerunFailureMessage(second, e)];
  }

  /** Two matching runs, the second refused: both are requested in order,
      only the first is reported, and the refusal is the error. */
  lemma SecondRerunRefused(client: Client, workflowName: string, pr: PullRequest,
                           first: WorkflowRun, second: WorkflowRun, e: Error)
    requires client.workflowRuns(RepoOf(pr), pr.headRefName) == Success([first, second])
    requires Selects(first, workflowName, pr.number) && Selects(second, workflowName, pr.number)
    requires client.rerun(RepoOf(pr), first.id).Success?
    requires client.rerun(RepoOf(pr), second.id) == Failure(e)
    ensures var t := TriggerReruns(client, workflowName, pr);
      && t.result.Failure?
      && t.result.error.Message() == RerunFailureMessage(second, e)
      && Requests(t.trace) == [ListWorkflowRuns(RepoOf(pr), "pull_request", pr.headRefName),
                               RerunWorkflowRun(RepoOf(pr), first.id), RerunWorkflowRun(RepoOf(pr), second.id)]
      && Reports(t.trace) == [RerunTriggered(pr, first)]
  {
    var runs := [first, second];
    assert runs[1..] == [second];
    assert [second][1..] == [];
    assert SelectRuns([second], workflowName, pr.number) == [second];
    assert SelectRuns(runs, workflowName, pr.number) == runs;
    TriggerRerunsEffects(client, workflowName, pr);
    SecondOfTwoRefused(client, pr, first, second, e);
  }

  /** The unit of a MERGEABLE pull request whose second matching run is refused. */
  lemma SecondRerunRefusedUnit(client: Client, random: Random, workflowName: string, pr: PullRequest,
                               first: WorkflowRun, second: WorkflowRun, e: Error)
    requires pr.mergeable == MergeableState
    requires client.workflowRuns(RepoOf(pr), pr.headRefName) == Success([first, second])
    requires Selects(first, workflowName, pr.number) && Selects(second, workflowName, pr.number)
    requires client.rerun(RepoOf(pr), first.id).Success?
    requires client.rerun(RepoOf(pr), second.id) == Failure(e)
    ensures var u := Reconcile(client, random, workflowName, pr);
      && u.outcome.Rejected?
      && u.outcome.reason.message == "failed to trigger runs for PR #" + NatToString(pr.number) + ": " + RerunFailureMessage(second, e)
      && Requests(u.trace) == [ListWorkflowRuns(RepoOf(pr), "pull_request", pr.headRefName),
                               RerunWorkflowRun(RepoOf(pr), first.id), RerunWorkflowRun(RepoOf(pr), second.id)]
      && Reports(u.trace) == [RerunTriggered(pr, first)]
  {
    SecondRerunRefused(client, workflowName, pr, first, second, e);
    MergeableUnit(client, random, workflowName, pr);
  }

  /** The collects-errors test: one MERGEABLE pull request whose second re-run
      is refused. The run fails with the refusal wrapped in the pull
      request's message, and `done()` is not reported. */
  lemma CollectsErrors(ctx: Context, client: Client, random: Random, pr: PullRequest,
                       first: WorkflowRun, second: WorkflowRun, e: Error)
    requires ctx.eventName == PushEventName && StartsWith(ctx.ref, BranchRefPrefix)
    requires client.openPullRequests(RepoRef(ctx.repository.ownerLogin, ctx.repository.name), ctx.ref[11..]) == Success([pr])
    requires pr.mergeable == MergeableState
    requires client.workflowRuns(RepoOf(pr), pr.headRefName) == Success([first, second])
    requires Selects(first, ctx.workflowName, pr.number) && Selects(second, ctx.workflowName, pr.number)
    requires client.rerun(RepoOf(pr), first.id).Success?
    requires client.rerun(RepoOf(pr), second.id) == Failure(e)
    ensures var o := Run(ctx, client, random);
      && o.result.Failure?
      && o.result.error.Message() ==
           "failed to trigger runs for PR #" + NatToString(pr.number) + ": " + RerunFailureMessage(second, e)
      && Requests(o.trace) == [ListOpenPullRequests(RepoRef(ctx.repository.ownerLogin, ctx.repository.name), ctx.ref[11..]),
                               ListWorkflowRuns(RepoOf(pr), "pull_request", pr.headRefName),
                               RerunWorkflowRun(RepoOf(pr), first.id), RerunWorkflowRun(RepoOf(pr), second.id)]
      && Reports(o.trace) == [RerunTriggered(pr, first)]
  {
    SecondRerunRefusedUnit(client, random, ctx.workflowName, pr, first, second, e);
    RunOfOnePullRequest(ctx, client, random, pr);
  }

  /** The message the collects-errors test expects, for PR #1, run 1337 and the cause "foobar". */
  lemma CollectsErrorsMessage(pr: PullRequest, second: WorkflowRun)
    requires pr.number == 1 && second.id == 1337
    ensures "failed to trigger runs for PR #" + NatToString(pr.number) + ": " + RerunFailureMessage(second, PlainError("foobar"))
         == "failed to trigger runs for PR #" + "1" + ": " + "failed to re-run workflow run " + "1337" + ": " + "foobar"
  {
    Decimal1337();
    assert NatToString(1) == "1";
  }

  // ------------------------------------- retries if mergeable state is unknown

  /** The two UNKNOWN units of the retry test, in discovery order. */
  lemma RefetchedUnits(client: Client, random: Random, workflowName: string,
                       p3: PullRequest, p3next: PullRequest, p4: PullRequest, p4next: PullRequest)
    requires p3.mergeable == UnknownState && client.pullRequest(RepoOf(p3), p3.number, 1) == Success(p3next)
    requires p3next.mergeable == MergeableState && client.workflowRuns(RepoOf(p3next), p3next.headRefName) == Success([])
    requires p4.mergeable == UnknownState && client.pullRequest(RepoOf(p4), p4.number, 1) == Success(p4next)
    requires p4next.mergeable != UnknownState && p4next.mergeable != MergeableState
    ensures var f := ReconcileAll(client, random, workflowName, [p3, p4]);
      && f.outcomes[0].Fulfilled? && f.outcomes[1].Fulfilled?
      && Reports(f.trace) == [NoRunsFound(p3next), PullRequestIgnored(p4next)]
      && Requests(f.trace) == [FetchPullRequest(RepoOf(p3), p3.number),
                               ListWorkflowRuns(RepoOf(p3next), "pull_request", p3next.headRefName),
                               FetchPullRequest(RepoOf(p4), p4.number)]
  {
    RefetchedToNoRunsUnit(client, random, workflowName, p3, p3next);
    RefetchedToIgnoredUnit(client, random, workflowName, p4, p4next);
    assert ReconcileAll(client, random, workflowName, []) == Fanout([], []);
    ConsEffects(client, random, workflowName, p4, []);
    assert [p4] + [] == [p4];
    ConsEffects(client, random, workflowName, p3, [p4]);
    assert [p3] + [p4] == [p3, p4];
  }

  /** The four units of the retry test, in discovery order. */
  lemma RetriesUnknownUnits(client: Client, random: Random, workflowName: string,
                            p1: PullRequest, p2: PullRequest, p3: PullRequest, p3next: PullRequest,
                            p4: PullRequest, p4next: PullRequest)
    requires p1.mergeable != UnknownState && p1.mergeable != MergeableState
    requires p2.mergeable == MergeableState && client.workflowRuns(RepoOf(p2), p2.headRefName) == Success([])
    requires p3.mergeable == UnknownState && client.pullRequest(RepoOf(p3), p3.number, 1) == Success(p3next)
    requires p3next.mergeable == MergeableState && client.workflowRuns(RepoOf(p3next), p3next.headRefName) == Success([])
    requires p4.mergeable == UnknownState && client.pullRequest(RepoOf(p4), p4.number, 1) == Success(p4next)
    requires p4next.mergeable != UnknownState && p4next.mergeable != MergeableState
    ensures var f := ReconcileAll(client, random, workflowName, [p1, p2, p3, p4]);
      && (forall i :: 0 <= i < |f.outcomes| ==> f.outcomes[i].Fulfilled?)
      && Reports(f.trace) == [PullRequestIgnored(p1), NoRunsFound(p2), NoRunsFound(p3next), PullRequestIgnored(p4next)]
      && Requests(f.trace) == [ListWorkflowRuns(RepoOf(p2), "pull_request", p2.headRefName),
                               FetchPullRequest(RepoOf(p3), p3.number),
                               ListWorkflowRuns(RepoOf(p3next), "pull_request", p3next.headRefName),
                               FetchPullRequest(RepoOf(p4), p4.number)]
  {
    LastThreeUnits(client, random, workflowName, p2, p3, p3next, p4, p4next);
    IgnoredUnit(client, random, workflowName, p1);
    ConsEffects(client, random, workflowName, p1, [p2, p3, p4]);
    assert [p1] + [p2, p3, p4] == [p1, p2, p3, p4];
    var f := ReconcileAll(client, random, workflowName, [p1, p2, p3, p4]);
    assert f.outcomes[0].Fulfilled?;
  }

  /** The last three units of the retry test, in discovery order. */
  lemma LastThreeUnits(client: Client, random: Random, workflowName: string,
                       p2: PullRequest, p3: PullRequest, p3next: PullRequest, p4: PullRequest, p4next: PullRequest)
    requires p2.mergeable == MergeableState && client.workflowRuns(RepoOf(p2), p2.headRefName) == Success([])
    requires p3.mergeable == UnknownState && client.pullRequest(RepoOf(p3), p3.number, 1) == Success(p3next)
    requires p3next.mergeable == MergeableState && client.workflowRuns(RepoOf(p3next), p3next.headRefName) == Success([])
    requires p4.mergeable == UnknownState && client.pullRequest(RepoOf(p4), p4.number, 1) == Success(p4next)
    requires p4next.mergeable != UnknownState && p4next.mergeable != MergeableState
    ensures var f := ReconcileAll(client, random, workflowName, [p2, p3, p4]);
      && f.outcomes[0].Fulfilled? && f.outcomes[1].Fulfilled? && f.outcomes[2].Fulfilled?
      && Reports(f.trace) == [NoRunsFound(p2), NoRunsFound(p3next), PullRequestIgnored(p4next)]
      && Requests(f.trace) == [ListWorkflowRuns(RepoOf(p2), "pull_request", p2.headRefName),
                               FetchPullRequest(RepoOf(p3), p3.number),
                               ListWorkflowRuns(RepoOf(p3next), "pull_request", p3next.headRefName),
                               FetchPullRequest(RepoOf(p4), p4.number)]
  {
    RefetchedUnits(client, random, workflowName, p3, p3next, p4, p4next);
    NoRunsUnit(client, random, workflowName, p2);
    ConsEffects(client, random, workflowName, p2, [p3, p4]);
    assert [p2] + [p3, p4] == [p2, p3, p4];
  }

  /** The retry test: four pull requests, the first in a state that is
      ignored, the second MERGEABLE without runs, the third and fourth
      UNKNOWN and refetched once, after which the third is MERGEABLE without
      runs and the fourth is in a state that is ignored. All four succeed,
      the refetched snapshots are the ones reported, and `done()` follows.
      The units run one after another in discovery order here, so
      `noRunsFound` of the third precedes `pullRequestIgnored` of the fourth;
      in the order in which the concurrent units of `handlePushEvent` report,
      the two refetches overlap and the test observes these two the other
      way round. */
  lemma RetriesUnknownPullRequests(ctx: Context, client: Client, random: Random,
                                   p1: PullRequest, p2: PullRequest, p3: PullRequest, p3next: PullRequest,
                                   p4: PullRequest, p4next: PullRequest)
    requires ctx.eventName == PushEventName && StartsWith(ctx.ref, BranchRefPrefix)
    requires client.openPullRequests(RepoRef(ctx.repository.ownerLogin, ctx.repository.name), ctx.ref[11..]) == Success([p1, p2, p3, p4])
    requires p1.mergeable != UnknownState && p1.mergeable != MergeableState
    requires p2.mergeable == MergeableState && client.workflowRuns(RepoOf(p2), p2.headRefName) == Success([])
    requires p3.mergeable == UnknownState && client.pullRequest(RepoOf(p3), p3.number, 1) == Success(p3next)
    requires p3next.mergeable == MergeableState && client.workflowRuns(RepoOf(p3next), p3next.headRefName) == Success([])
    requires p4.mergeable == UnknownState && client.pullRequest(RepoOf(p4), p4.number, 1) == Success(p4next)
    requires p4next.mergeable != UnknownState && p4next.mergeable != MergeableState
    ensures var o := Run(ctx, client, random);
      && o.result == Success(())
      && Reports(o.trace) == [PullRequestIgnored(p1), NoRunsFound(p2), NoRunsFound(p3next), PullRequestIgnored(p4next), Done]
      && Requests(o.trace) == [ListOpenPullRequests(RepoRef(ctx.repository.ownerLogin, ctx.repository.name), ctx.ref[11..]),
                               ListWorkflowRuns(RepoOf(p2), "pull_request", p2.headRefName),
                               FetchPullRequest(RepoOf(p3), p3.number),
                               ListWorkflowRuns(RepoOf(p3next), "pull_request", p3next.headRefName),
                               FetchPullRequest(RepoOf(p4), p4.number)]
  {
    RetriesUnknownUnits(client, random, ctx.workflowName, p1, p2, p3, p3next, p4, p4next);
    RunOfSucceedingUnits(ctx, client, random, [p1, p2, p3, p4],
      [PullRequestIgnored(p1), NoRunsFound(p2), NoRunsFound(p3next), PullRequestIgnored(p4next)],
      [ListWorkflowRuns(RepoOf(p2), "pull_request", p2.headRefName), FetchPullRequest(RepoOf(p3), p3.number),
       ListWorkflowRuns(RepoOf(p3next), "pull_request", p3next.headRefName), FetchPullRequest(RepoOf(p4), p4.number)]);
  }
}
