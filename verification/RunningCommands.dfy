/** One run from the first poll to its result
    (`src/command_runner/internal/running_command.rs`). */
module RunningCommands {
  import opened Basics
  import opened Clocks
  import opened CommandErrors
  import opened StopReasons
  import opened Monitoring
  import opened OutputBudget
  import opened OutputCollector
  import opened OutputReaders
  import opened ProcessTermination
  import opened HelperShutdown
  import opened CommandIo
  import opened Finalization

  /** What the two monitoring phases saw and reported, how they slept, and the event
      that settled the run. */
  datatype Watching = Watching(first: Option<RunEvent>, second: Option<RunEvent>, final: Option<RunEvent>,
                               running: seq<Poll>, exited: seq<Poll>,
                               runningSleeps: seq<Duration>, exitedSleeps: seq<Duration>)

  /** The event that settles a run: that of the second phase once the child has exited. */
  predicate Settles(first: Option<RunEvent>, second: Option<RunEvent>, final: Option<RunEvent>) {
    if first.Some? && first.value.Exited? then
      final == second && (second.Some? && second.value.Exited? ==> second == first)
    else final == first
  }

  /** Each phase reports what its polls decide; `None` while a script ended quietly. */
  ghost predicate Watched(w: Watch, reaped: Result<ExitStatus, IoError>, running: seq<Poll>, exited: seq<Poll>,
                          run: Watching)
  {
    && (if w.Polls() then Polled(running, run.running, run.first) && Reports(w, BeforeExit, run.running, run.first)
        else run.first == Some(if reaped.Ok? then RunEvent.Exited(reaped.value) else RunEvent.WaitFailed(reaped.error)))
    && (run.first.Some? && run.first.value.Exited? ==>
          if w.Polls() then
            && Polled(exited, run.exited, run.second)
            && Reports(w, AfterExit(run.first.value.exit), run.exited, run.second)
          else run.second == run.first)
    && Settles(run.first, run.second, run.final)
    && Slept(w, BeforeExit, run.running, run.runningSleeps)
    && (if run.first.Some? && run.first.value.Exited?
        then Slept(w, AfterExit(run.first.value.exit), run.exited, run.exitedSleeps)
        else run.exited == [] && run.exitedSleeps == [])
  }

  lemma SameExit(w: Watch, status: ExitStatus, script: seq<Poll>, event: Option<RunEvent>)
    requires Reports(w, AfterExit(status), script, event)
    ensures event.Some? && event.value.Exited? ==> event.value.exit == status
  {
    if event.Some? {
      var k: nat, c :| DecidedAt(w, AfterExit(status), script, k, c, event.value);
    }
  }

  /** An event that blames the budget quotes the ledger it was decided on. */
  ghost predicate BlamesLedger(budget: TotalOutputBudget?, decided: Option<Ledger>, final: Option<RunEvent>) {
    final.Some? && final.value.OutputLimitExceeded? ==>
      budget != null && decided.Some?
      && Exceeded(budget.limits, decided.value) == Some((final.value.limit, final.value.observed))
  }

  /** Runs both monitoring phases while the readers go on. */
  method Monitor(w: Watch, reaped: Result<ExitStatus, IoError>, running: seq<Poll>, exited: seq<Poll>,
                 budget: TotalOutputBudget?)
    returns (run: Watching)
    requires w.budgeted <==> budget != null
    modifies budget
    ensures Watched(w, reaped, running, exited, run)
    ensures MovesOn(budget, old(LedgerOf(budget)), LedgerOf(budget), true, true)
    ensures BlamesLedger(budget, LedgerOf(budget), run.final)
  {
    hide Reports, Polled, MovesOn, Slept;
    var event, polls, sleeps;
    event, polls, sleeps := WaitForEvent(w, reaped, running, budget);
    run := Watching(event, None, event, polls, [], sleeps, []);
    if event.Some? && event.value.Exited? {
      ghost var before := LedgerOf(budget);
      var later, laterPolls, laterSleeps;
      later, laterPolls, laterSleeps := WaitForIoEvent(w, event.value.exit, exited, budget);
      MovesOnChain(budget, old(LedgerOf(budget)), before, LedgerOf(budget));
      if w.Polls() {
        SameExit(w, event.value.exit, laterPolls, later);
      }
      run := Watching(event, later, later, polls, laterPolls, sleeps, laterSleeps);
    }
  }

  /** What settles a watched run, said about the polls: before the exit, an event that
      a poll of the first phase met; once a poll saw the exit, an event that a poll of
      the second phase met, so that a timeout, a cancellation or an overrun still ends
      a run whose child is gone. */
  lemma FinalEventTellsPoll(w: Watch, reaped: Result<ExitStatus, IoError>, running: seq<Poll>, exited: seq<Poll>,
                            run: Watching)
    requires w.timeout.Some? || w.cancellable || w.budgeted
    requires Watched(w, reaped, running, exited, run) && run.final.Some?
    ensures run.first.Some?
    ensures exists k :: 0 <= k < |run.running| && Meets(w, BeforeExit, run.running[k], run.first.value)
    ensures if !run.first.value.Exited? then run.final == run.first
      else exists k ::
        0 <= k < |run.exited| && Meets(w, AfterExit(run.first.value.exit), run.exited[k], run.final.value)
    ensures run.final.value.Exited? ==> run.final == run.first
  {
    hide Reports, Meets, Slept, Polled;
    EventTellsPoll(w, BeforeExit, run.running, run.first);
    if run.first.Some? && run.first.value.Exited? {
      EventTellsPoll(w, AfterExit(run.first.value.exit), run.exited, run.second);
    }
  }

  /** The timeout is measured once, from the start of the child: whatever the child
      exit leaves to be waited for, both phases of a run together sleep no longer
      than it, and only as often as it allows. */
  lemma ExitKeepsDeadline(w: Watch, reaped: Result<ExitStatus, IoError>, running: seq<Poll>, exited: seq<Poll>,
                          run: Watching)
    requires w.timeout.Some? && Watched(w, reaped, running, exited, run)
    requires OneClock(w, run.running, run.runningSleeps, run.exited, run.exitedSleeps)
    ensures TotalSlept(run.runningSleeps) + TotalSlept(run.exitedSleeps) <= w.timeout.value
    ensures (|run.runningSleeps| + |run.exitedSleeps| - 2) * 10 * MILLISECOND < w.timeout.value + 50 * MILLISECOND
  {
    hide Slept, OneClock, Reports, Polled, TotalSlept;
    if run.first.Some? && run.first.value.Exited? {
      PhasesShareDeadline(w, run.running, run.runningSleeps, run.first.value.exit, run.exited, run.exitedSleeps);
    } else {
      NoSleepYet(w, AfterExit(ExitStatus(0)));
      PhasesShareDeadline(w, run.running, run.runningSleeps, ExitStatus(0), [], []);
    }
  }

  /** What happened after the deciding event: helpers joined, or child and helpers stopped. */
  datatype Ending = Completed(ends: HelperEnds, passage: Passage) | Stopped(stop: Stopping) | StillRunning

  /** The budget and its readers are as a fresh run leaves them: books balanced, nothing moved out. */
  ghost predicate Intact(budget: TotalOutputBudget?)
    reads budget
  {
    budget != null ==> budget.Valid() && !budget.stdoutTransferred && !budget.stderrTransferred
  }

  /** How `ending` explains the result, given the ledger when the run was decided and now. */
  twostate predicate Explained(new result: Option<Result<CommandOutput, CommandError>>, final: Option<RunEvent>,
                               elapsed: Result<Duration, TimeError>, treeManaged: bool, stdout: OutputReader,
                               stderr: OutputReader, stdin: StdinThread?, budget: TotalOutputBudget?, now: Duration,
                               decided: Option<Ledger>, exit: Option<Ledger>, ending: Ending)
    reads if result.Some? && result.value.Err? then {result.value.error} else {}
  {
    match final
    case None => result == None && ending.StillRunning?
    case Some(Exited(status)) =>
      && result.Some? && ending.Completed?
      && CollectionOf(result.value, status, elapsed, ending.ends)
      && AllJoined(stdout, stderr, stdin, budget, ending.ends, ending.passage)
      && ending.passage.start == decided && ending.passage.end == exit
    case Some(event) =>
      && IntoExitStatus(event).Err?
      && result.Some? && result.value.Err? && fresh(result.value.error) && ending.Stopped?
      && StopRecord(IntoExitStatus(event).error, treeManaged, stdout, stderr, stdin, budget, now,
           decided, exit, ending.stop)
      && ErrorOf(result.value.error, IntoExitStatus(event).error, elapsed, ending.stop.termination, ending.stop.ends,
           ending.stop.passage.start, exit)
  }

  /** A run that completes was never asked to stop; every other settled run ends in
      an error whose reason is the event that settled it; and an exceeded limit
      hands over exactly what both readers ever took. */
  method WaitForCompletion(w: Watch, reaped: Result<ExitStatus, IoError>, running: seq<Poll>, exited: seq<Poll>,
                           child: ManagedChild, stdout: OutputReader, stderr: OutputReader, stdin: StdinThread?,
                           budget: TotalOutputBudget?, elapsed: Result<Duration, TimeError>, log: Log, clock: Clock)
    returns (result: Option<Result<CommandOutput, CommandError>>, ghost run: Watching, ghost decided: Option<Ledger>,
             ghost ending: Ending)
    requires Wired(stdout, stderr, budget) && (w.budgeted <==> budget != null)
    modifies child, log, clock, budget
    ensures Watched(w, reaped, running, exited, run)
    ensures MovesOn(budget, old(LedgerOf(budget)), decided, true, true) && BlamesLedger(budget, decided, run.final)
    ensures Explained(result, run.final, elapsed, child.treeManaged, stdout, stderr, stdin, budget, old(clock.now),
              decided, LedgerOf(budget), ending)
    ensures if ending.Stopped?
      then child.calls == old(child.calls) + ending.stop.calls && log.acts == old(log.acts) + ending.stop.acts
      else child.calls == old(child.calls) && log.acts == old(log.acts)
    ensures ending.Stopped? && ending.stop.calls != [] ==> child.last <= ending.stop.start
    ensures old(Intact(budget)) && run.final.Some? && run.final.value.OutputLimitExceeded? ==>
      && result.Some? && result.value.Err? && result.value.error.Reachable().Some?
      && HandsOver(budget.limits, budget.State(), result.value.error.Reachable().value)
      && budget.State().Consumed() == run.final.value.observed == run.final.value.limit + 1
  {
    hide Watched, MovesOn, AllJoined, StopRecord, ErrorOf, CollectionFailures, BlamesLedger;
    var watching := Monitor(w, reaped, running, exited, budget);
    run, decided, ending := watching, LedgerOf(budget), StillRunning;
    if watching.final.None? {
      return None, run, decided, ending;
    }
    match IntoExitStatus(watching.final.value) {
      case Ok(status) =>
        var collected;
        ghost var ends, p;
        collected, ends, p := CollectOutput(status, elapsed, stdout, stderr, stdin, budget);
        result := Some(collected);
        ending := Completed(ends, p);
      case Err(reason) =>
        var error;
        ghost var stopping;
        error, stopping := StopAndFinalize(reason, child, stdout, stderr, stdin, budget, elapsed, log, clock);
        result := Some(Err(error));
        ending := Ending.Stopped(stopping);
        if old(Intact(budget)) && reason.OutputLimitExceeded? {
          LimitEndsHandedOver(old(LedgerOf(budget)), decided, LedgerOf(budget), child.treeManaged,
            stdout, stderr, stdin, budget, error, watching.final.value, elapsed, old(clock.now), stopping);
        }
    }
  }

  lemma LimitEndsHandedOver(before: Option<Ledger>, decided: Option<Ledger>, exit: Option<Ledger>, treeManaged: bool,
                            stdout: OutputReader, stderr: OutputReader, stdin: StdinThread?, budget: TotalOutputBudget?,
                            error: CommandError, event: RunEvent, elapsed: Result<Duration, TimeError>, now: Duration,
                            stop: Stopping)
    requires event.OutputLimitExceeded? && BlamesLedger(budget, decided, Some(event))
    requires MovesOn(budget, before, decided, true, true)
    requires before.Some? ==>
      Balanced(budget.limits, before.value) && !before.value.stdout.transferred && !before.value.stderr.transferred
    requires StopRecord(IntoExitStatus(event).error, treeManaged, stdout, stderr, stdin, budget, now,
               decided, exit, stop)
    requires ErrorOf(error, IntoExitStatus(event).error, elapsed, stop.termination, stop.ends, stop.passage.start, exit)
    ensures exit.Some? && error.Reachable().Some?
    ensures HandsOver(budget.limits, exit.value, error.Reachable().value)
    ensures exit.value.Consumed() == event.observed == event.limit + 1
  {
    hide HandsOver, ErrorOf, Explains, AllFinished, ChannelKept, StreamOutcome;
    assert exit.Some? && before.Some? && decided.Some?;
    StopHandsOver(decided.value, exit.value, treeManaged, stdout, stderr, stdin, budget, error,
      IntoExitStatus(event).error, elapsed, now, stop);
  }
}
