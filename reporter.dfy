/** The progress reporter (src/reporter.ts): the four notifications the
    engine sends, and `ActionsReporter`, which writes them to the job log
    and remembers whether any notification other than `done()` arrived. */
module Reporter {
  import opened Wrappers
  import opened Types
  import opened Text

  /** One call the engine makes on its reporter. */
  datatype Event =
    | PullRequestIgnored(pullRequest: PullRequest)
    | RerunTriggered(pullRequest: PullRequest, run: WorkflowRun)
    | NoRunsFound(pullRequest: PullRequest)
    | Done

  /** The log levels used: `core.info` and `core.error`. */
  datatype Level = InfoLevel | ErrorLevel

  datatype LogEntry = LogEntry(level: Level, message: string)

  /** How `${run.status}` renders a nullable status. */
  function StatusText(status: Option<string>): string {
    if status.Some? then status.value else "null"
  }

  function IgnoredMessage(pr: PullRequest): string {
    "Skipped PR #" + NatToString(pr.number) + " in " + pr.mergeable + " state."
  }

  function TriggeredMessage(pr: PullRequest, run: WorkflowRun): string {
    TriggeredText(NatToString(run.id), StatusText(run.status), NatToString(pr.number))
  }

  function TriggeredText(id: string, status: string, number: string): string {
    "Triggered re-run of workflow run " + id + " in " + status + " state for PR #" + number + "."
  }

  function NoRunsMessage(pr: PullRequest): string {
    "No runs found for PR #" + NatToString(pr.number) + "."
  }

  const NoPullRequestsMessage: string := "No pull requests found."

  const NoPullRequestsEntry: LogEntry := LogEntry(InfoLevel, NoPullRequestsMessage)

  /** Whether the reporter has seen a notification other than `done()`. */
  predicate Interacted(events: seq<Event>) {
    exists i :: 0 <= i < |events| && !events[i].Done?
  }

  /** The log lines written for notification `e` after the notifications in `history`. */
  function Emitted(history: seq<Event>, e: Event): seq<LogEntry> {
    match e
    case PullRequestIgnored(pr) => [LogEntry(InfoLevel, IgnoredMessage(pr))]
    case RerunTriggered(pr, run) => [LogEntry(InfoLevel, TriggeredMessage(pr, run))]
    case NoRunsFound(pr) => [LogEntry(ErrorLevel, NoRunsMessage(pr))]
    case Done => if Interacted(history) then [] else [NoPullRequestsEntry]
  }

  /** The whole log written for a sequence of notifications. */
  function LogOf(events: seq<Event>): seq<LogEntry>
    decreases |events|
  {
    if |events| == 0 then []
    else LogOf(events[..|events| - 1]) + Emitted(events[..|events| - 1], events[|events| - 1])
  }

  lemma LogOfSnoc(events: seq<Event>, e: Event)
    ensures LogOf(events + [e]) == LogOf(events) + Emitted(events, e)
  {
    assert (events + [e])[..|events|] == events;
  }

  /** Logs progress to the job console. */
  class ActionsReporter {
    var interactions: bool
    var log: seq<LogEntry>
    /** The notifications received so far. */
    ghost var events: seq<Event>

    ghost predicate Valid()
      reads this
    {
      interactions == Interacted(events) && log == LogOf(events)
    }

    constructor ()
      ensures Valid() && events == [] && log == [] && !interactions
    {
      interactions := false;
      log := [];
      events := [];
    }

    method PullRequestIgnored(pullRequest: PullRequest)
      requires Valid()
      modifies this
      ensures Valid() && events == old(events) + [Event.PullRequestIgnored(pullRequest)]
      ensures interactions
      ensures log == old(log) + [LogEntry(InfoLevel, IgnoredMessage(pullRequest))]
    {
      LogOfSnoc(events, Event.PullRequestIgnored(pullRequest));
      interactions := true;
      log := log + [LogEntry(InfoLevel, IgnoredMessage(pullRequest))];
      events := events + [Event.PullRequestIgnored(pullRequest)];
      assert !events[|events| - 1].Done?;
    }

    method RerunTriggered(pullRequest: PullRequest, run: WorkflowRun)
      requires Valid()
      modifies this
      ensures Valid() && events == old(events) + [Event.RerunTriggered(pullRequest, run)]
      ensures interactions
      ensures log == old(log) + [LogEntry(InfoLevel, TriggeredMessage(pullRequest, run))]
    {
      LogOfSnoc(events, Event.RerunTriggered(pullRequest, run));
      interactions := true;
      log := log + [LogEntry(InfoLevel, TriggeredMessage(pullRequest, run))];
      events := events + [Event.RerunTriggered(pullRequest, run)];
      assert !events[|events| - 1].Done?;
    }

    method NoRunsFound(pullRequest: PullRequest)
      requires Valid()
      modifies this
      ensures Valid() && events == old(events) + [Event.NoRunsFound(pullRequest)]
      ensures interactions
      ensures log == old(log) + [LogEntry(ErrorLevel, NoRunsMessage(pullRequest))]
    {
      LogOfSnoc(events, Event.NoRunsFound(pullRequest));
      interactions := true;
      log := log + [LogEntry(ErrorLevel, NoRunsMessage(pullRequest))];
      events := events + [Event.NoRunsFound(pullRequest)];
      assert !events[|events| - 1].Done?;
    }

    method Done()
      requires Valid()
      modifies this
      ensures Valid() && events == old(events) + [Event.Done]
      ensures interactions == old(interactions)
      ensures log == old(log) + (if old(interactions) then [] else [NoPullRequestsEntry])
    {
      LogOfSnoc(events, Event.Done);
      InteractedAfterDone(events);
      if !interactions {
        log := log + [NoPullRequestsEntry];
      }
      events := events + [Event.Done];
    }
  }

  /** `done()` neither sets nor clears the interaction flag. */
  lemma InteractedAfterDone(events: seq<Event>)
    ensures Interacted(events + [Done]) == Interacted(events)
  {
    if Interacted(events + [Done]) {
      var i :| 0 <= i < |events| + 1 && !(events + [Done])[i].Done?;
      assert events[i] == (events + [Done])[i];
    }
    if Interacted(events) {
      var i :| 0 <= i < |events| && !events[i].Done?;
      assert (events + [Done])[i] == events[i];
    }
  }

  /** Once a notification other than `done()` has arrived, the flag stays set
      whatever follows. */
  lemma InteractionsNeverReset(events: seq<Event>, later: seq<Event>)
    requires Interacted(events)
    ensures Interacted(events + later)
  {
    var i :| 0 <= i < |events| && !events[i].Done?;
    assert (events + later)[i] == events[i];
  }

  /** The messages of the error-level lines of a log, in order. */
  function ErrorLines(log: seq<LogEntry>): seq<string>
    decreases |log|
  {
    if |log| == 0 then [] else ErrorLines(log[..|log| - 1]) + ErrorLine(log[|log| - 1])
  }

  function ErrorLine(entry: LogEntry): seq<string> {
    if entry.level == ErrorLevel then [entry.message] else []
  }

  /** The "no runs" message of every `noRunsFound` notification, in order. */
  function NoRunsLines(events: seq<Event>): seq<string>
    decreases |events|
  {
    if |events| == 0 then [] else NoRunsLines(events[..|events| - 1]) + NoRunsLine(events[|events| - 1])
  }

  function NoRunsLine(e: Event): seq<string> {
    if e.NoRunsFound? then [NoRunsMessage(e.pullRequest)] else []
  }

  lemma ErrorLinesAppend(a: seq<LogEntry>, b: seq<LogEntry>)
    ensures ErrorLines(a + b) == ErrorLines(a) + ErrorLines(b)
    decreases |b|
  {
    if |b| > 0 {
      assert (a + b)[..|a + b| - 1] == a + b[..|b| - 1];
      ErrorLinesAppend(a, b[..|b| - 1]);
    } else {
      assert a + b == a;
    }
  }

  lemma ErrorLinesOfEmitted(history: seq<Event>, e: Event)
    ensures ErrorLines(Emitted(history, e)) == NoRunsLine(e)
  {
    var m := Emitted(history, e);
    if |m| == 1 {
      assert m[..0] == [];
      assert ErrorLines(m) == ErrorLine(m[0]);
    }
  }

  /** The reporter writes at error level for `noRunsFound` and for nothing
      else, one line per such notification, in order. */
  lemma {:induction false} ErrorLinesAreNoRunsLines(events: seq<Event>)
    ensures ErrorLines(LogOf(events)) == NoRunsLines(events)
    decreases |events|
  {
    if |events| > 0 {
      var h := events[..|events| - 1];
      var last := events[|events| - 1];
      ErrorLinesAreNoRunsLines(h);
      ErrorLinesAppend(LogOf(h), Emitted(h, last));
      ErrorLinesOfEmitted(h, last);
    }
  }

  /** "No pull requests found." is logged exactly when the very first
      notification the reporter received was `done()`. */
  lemma {:induction false} NoPullRequestsLoggedIff(events: seq<Event>)
    ensures NoPullRequestsEntry in LogOf(events) <==> |events| > 0 && events[0] == Done
    decreases |events|
  {
    if |events| > 0 {
      var h := events[..|events| - 1];
      var last := events[|events| - 1];
      NoPullRequestsLoggedIff(h);
      assert LogOf(events) == LogOf(h) + Emitted(h, last);
      if |h| > 0 {
        assert h[0] == events[0];
      }
      if last.Done? && !Interacted(h) && |h| > 0 {
        assert !h[0].Done? ==> Interacted(h);
      }
      if last.Done? && Interacted(h) && events[0] == Done {
        var i :| 0 <= i < |h| && !h[i].Done?;
        assert i > 0;
      }
      if !last.Done? {
        var m := Emitted(h, last)[0].message;
        assert m[0] != 'N' || Emitted(h, last)[0].level == ErrorLevel;
      }
    }
  }

  /** `done()` writes "No pull requests found." when no other notification came
      first, and nothing at all after any interaction. */
  lemma DoneLogsOnlyWithoutInteraction(events: seq<Event>)
    ensures !Interacted(events) ==> LogOf(events + [Done]) == LogOf(events) + [NoPullRequestsEntry]
    ensures Interacted(events) ==> LogOf(events + [Done]) == LogOf(events)
  {
    LogOfSnoc(events, Done);
  }

  lemma LogOfPair(e: Event)
    ensures LogOf([e, Done]) == Emitted([], e) + Emitted([e], Done)
  {
    LogOfSnoc([], e);
    LogOfSnoc([e], Done);
    assert [] + [e] == [e];
    assert [e] + [Done] == [e, Done];
  }

  lemma Decimal1337()
    ensures NatToString(1337) == "1337"
  {
    assert NatToString(1) == "1";
    assert NatToString(13) == "13";
    assert NatToString(133) == "133";
  }

  lemma Decimal42()
    ensures NatToString(42) == "42"
  {
    assert NatToString(4) == "4";
  }

  /** An ignored pull request is logged at info level with its number and state,
      and the `done()` after it writes nothing. */
  lemma LogsIgnoredPullRequest(headRefName: string, repository: Repository)
    ensures LogOf([PullRequestIgnored(PullRequest(1337, "foo", headRefName, repository)), Done])
         == [LogEntry(InfoLevel, "Skipped PR #1337 in foo state.")]
  {
    var e := PullRequestIgnored(PullRequest(1337, "foo", headRefName, repository));
    LogOfPair(e);
    assert Interacted([e]) by { assert ![e][0].Done?; }
    Decimal1337();
    assert IgnoredMessage(e.pullRequest) == "Skipped PR #" + "1337" + " in " + "foo" + " state.";
    IgnoredTextOfTest();
  }

  lemma IgnoredTextOfTest()
    ensures "Skipped PR #" + "1337" + " in " + "foo" + " state." == "Skipped PR #1337 in foo state."
  {
  }

  /** A pull request without runs is logged at error level only. */
  lemma LogsNoRunsFound(mergeable: string, headRefName: string, repository: Repository)
    ensures LogOf([NoRunsFound(PullRequest(1337, mergeable, headRefName, repository)), Done])
         == [LogEntry(ErrorLevel, "No runs found for PR #1337.")]
  {
    var e := NoRunsFound(PullRequest(1337, mergeable, headRefName, repository));
    LogOfPair(e);
    assert Interacted([e]) by { assert ![e][0].Done?; }
    Decimal1337();
    assert NoRunsMessage(e.pullRequest) == "No runs found for PR #1337.";
  }

  /** A triggered re-run is logged at info level with the run id, its status and the PR number. */
  lemma LogsTriggeredRerun(pr: PullRequest, run: WorkflowRun)
    requires pr.number == 42 && run.id == 1337 && run.status == Some("completed")
    ensures LogOf([RerunTriggered(pr, run), Done])
         == [LogEntry(InfoLevel, "Triggered re-run of workflow run 1337 in completed state for PR #42.")]
  {
    var e := RerunTriggered(pr, run);
    LogOfPair(e);
    assert Interacted([e]) by { assert ![e][0].Done?; }
    TriggeredMessageOfTest(pr, run);
  }

  lemma TriggeredMessageOfTest(pr: PullRequest, run: WorkflowRun)
    requires pr.number == 42 && run.id == 1337 && run.status == Some("completed")
    ensures TriggeredMessage(pr, run) == "Triggered re-run of workflow run 1337 in completed state for PR #42."
  {
    Decimal1337();
    Decimal42();
    assert TriggeredMessage(pr, run) == TriggeredText("1337", "completed", "42");
    TriggeredTextOfTest();
  }

  lemma TriggeredTextOfTest()
    ensures TriggeredText("1337", "completed", "42") == "Triggered re-run of workflow run 1337 in completed state for PR #42."
  {
  }

  /** A lone `done()` logs that no pull requests were found. */
  lemma LogsNoPullRequests()
    ensures LogOf([Done]) == [LogEntry(InfoLevel, "No pull requests found.")]
  {
    assert [Done][..0] == [];
  }
}
