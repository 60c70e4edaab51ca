/** What a stopped or abandoned command reports, said about what happened outside:
    the calls to the child, the acts on the helpers, the workers' own results, the
    clock, and the kind of the stop reason (`running_command.rs`, `stop_reason.rs`,
    `command_io.rs`, `starting_command.rs`). */
module StopReports {
  import opened Basics
  import opened CommandErrors
  import opened StopReasons
  import opened OutputBudget
  import opened OutputCollector
  import opened OutputReaders
  import opened ProcessTermination
  import opened HelperShutdown
  import opened CommandIo
  import opened Finalization
  import opened StartingCommands

  // ---------------------------------------------------------------------
  // Output by the kind of reason

  /** A timeout, a cancellation and a clock failure after the exit keep the full
      output of a terminated child, with the status known before the stop or else
      the terminator's; a failed wait and a clock failure before the exit keep none;
      an exceeded limit keeps the captures without status and duration. */
  lemma OutputByReason(error: CommandError, reason: StopReason, elapsed: Result<Duration, TimeError>,
                       termination: Termination, ends: HelperEnds, shot: Option<Ledger>, exit: Option<Ledger>)
    requires ErrorOf(error, reason, elapsed, termination, ends, shot, exit)
    ensures reason.WaitFailed? || (reason.TimeFailed? && reason.status.None?) ==>
      error.Reachable() == None && error.output == None
    ensures reason.TimedOut? || reason.Cancelled? || (reason.TimeFailed? && reason.status.Some?) ==>
      if termination.NotTerminated? then error.Reachable() == None && error.output == None
      else
        && error.Reachable() == Some(Captures(ends))
        && (elapsed.Err? ==> error.output == None)
        && (elapsed.Ok? ==>
              var status := if reason.status.Some? then reason.status.value else termination.status;
              error.output == Some(CommandOutput(status, Captures(ends), elapsed.value)))
    ensures reason.OutputLimitExceeded? ==>
      error.output == None && (termination.Terminated? ==> error.Reachable().Some?)
  {
    hide Evidence, Captures, SortByRank;
  }

  /** Where the captures of an exceeded limit come from: the budget as it stood before
      the helpers were touched, if the child could not be terminated; the helpers, if
      nothing failed to be collected; and otherwise, stream by stream, the joined
      reader or the budget as it stands at the end, with its own flags. */
  lemma LimitCaptures(error: CommandError, reason: StopReason, elapsed: Result<Duration, TimeError>,
                      termination: Termination, ends: HelperEnds, shot: Ledger, exit: Ledger, s: Stream)
    requires reason.OutputLimitExceeded?
    requires ErrorOf(error, reason, elapsed, termination, ends, Some(shot), Some(exit))
    ensures error.Reachable().Some?
    ensures var output, now := error.Reachable().value.Get(s), exit.Get(s);
      if termination.NotTerminated? then
        output == CapturedOutput(shot.Get(s).bytes, shot.Get(s).truncated, shot.Get(s).complete)
      else if CollectedFailures(elapsed, ends) == [] || now.transferred then output == Captures(ends).Get(s)
      else output == CapturedOutput(now.bytes, now.truncated, now.complete)
  {
    hide Evidence, Captures, SortByRank, CollectedFailures;
  }

  /** A stream's capture is that of its joined reader or the copy of its detached one. */
  lemma CapturesAreEnds(ends: HelperEnds, s: Stream)
    requires OutcomeOf(ends, s).end.Some?
    ensures Captures(ends).Get(s) == match OutcomeOf(ends, s).end.value
      case Detached(output) => output
      case Joined(Ok(output)) => output
      case Joined(Err(failure)) => failure.output
  {
  }

  // ---------------------------------------------------------------------
  // Failures of the helpers, from the record and the workers

  function CancelFailure(h: Helper, error: IoError): CleanupFailure {
    match h
    case StdoutReader => StdoutCancellation(error)
    case StderrReader => StderrCancellation(error)
    case StdinWriter => StdinCancellation(error)
  }

  // A name for the bag of a list; the proofs below only add bags up.
  function BagOf(failures: seq<CleanupFailure>): multiset<CleanupFailure> {
    multiset(failures)
  }

  function CancelFailures(h: Helper, cancellation: Option<IoError>): seq<CleanupFailure> {
    if cancellation.Some? then [CancelFailure(h, cancellation.value)] else []
  }

  /** What a request to a helper is reported as in the record `whole`: its failure,
      unless it found nothing to cancel and the helper was joined. */
  ghost function Refusal(whole: seq<Act>, act: Act): seq<CleanupFailure> {
    if act.Cancel? && act.error.Some? && (!act.error.value.kind.NoPendingIo? || DetachedIn(whole, act.h))
    then [CancelFailure(act.h, act.error.value)] else []
  }

  ghost function Refusals(whole: seq<Act>, acts: seq<Act>): seq<CleanupFailure> {
    if acts == [] then []
    else Refusals(whole, acts[..|acts| - 1]) + Refusal(whole, acts[|acts| - 1])
  }

  ghost function RefusalsOf(whole: seq<Act>, acts: seq<Act>, h: Helper): multiset<CleanupFailure> {
    BagOf(Refusals(whole, Decisive(acts, h)))
  }

  lemma {:induction false} RefusalsByHelper(whole: seq<Act>, acts: seq<Act>)
    ensures BagOf(Refusals(whole, acts))
            == RefusalsOf(whole, acts, StdoutReader) + RefusalsOf(whole, acts, StderrReader)
               + RefusalsOf(whole, acts, StdinWriter)
  {
    hide Refusal, RefusalsOf;
    if acts == [] {
      NoActs(whole, StdoutReader);
      NoActs(whole, StderrReader);
      NoActs(whole, StdinWriter);
    } else {
      var n := |acts| - 1;
      RefusalsByHelper(whole, acts[..n]);
      RefusalsOfNext(whole, acts, StdoutReader);
      RefusalsOfNext(whole, acts, StderrReader);
      RefusalsOfNext(whole, acts, StdinWriter);
    }
  }

  lemma NoActs(whole: seq<Act>, h: Helper)
    ensures RefusalsOf(whole, [], h) == multiset{}
  {
  }

  lemma RefusalsOfNext(whole: seq<Act>, acts: seq<Act>, h: Helper)
    requires acts != []
    ensures var n := |acts| - 1;
      RefusalsOf(whole, acts, h)
      == RefusalsOf(whole, acts[..n], h) + (if acts[n].h == h then BagOf(Refusal(whole, acts[n])) else multiset{})
  {
    var n := |acts| - 1;
    var sofar, last := Decisive(acts[..n], h), acts[n];
    if last.h == h && (last.Cancel? || last.Join? || last.Detach?) {
      assert Decisive(acts, h) == sofar + [last];
      RefusalsExtend(whole, sofar, last);
    } else {
      assert Decisive(acts, h) == sofar + [] == sofar;
    }
    hide Refusals, Decisive;
  }

  lemma RefusalsExtend(whole: seq<Act>, acts: seq<Act>, act: Act)
    ensures Refusals(whole, acts + [act]) == Refusals(whole, acts) + Refusal(whole, act)
  {
    assert (acts + [act])[..|acts|] == acts;
    hide Refusal;
  }

  /** A helper's part of the record amounts to the cancellation failure it is given. */
  lemma RefusalsOfHelper(trace: seq<Act>, h: Helper, supplied: bool, detached: bool, cancellation: Option<IoError>,
                         deadline: Duration)
    requires HelperRecord(trace, h, supplied, detached, cancellation, deadline)
    ensures RefusalsOf(trace, trace, h)
            == BagOf(CancelFailures(h, cancellation))
  {
    if supplied {
      TwoDecisive(trace, h, detached, cancellation, deadline);
      var acts := Decisive(trace, h);
      FirstOfTwo(trace, h, acts);
      DecisiveIsOf(trace, h, acts[0]);
      hide Decisive, DetachedIn, Refusals, Confirmed;
    } else {
      NothingDecisive(trace, h);
      NoActs(trace, h);
    }
  }

  lemma DecisiveIsOf(trace: seq<Act>, h: Helper, act: Act)
    requires act in Decisive(trace, h)
    ensures act.h == h
  {
    DecisiveMembers(trace, h, act);
  }

  lemma FirstOfTwo(whole: seq<Act>, h: Helper, acts: seq<Act>)
    requires |acts| == 2 && !acts[1].Cancel?
    ensures Refusals(whole, acts) == Refusal(whole, acts[0])
  {
    assert acts == [acts[0]] + [acts[1]] && [acts[0]] == [] + [acts[0]];
    RefusalsExtend(whole, [acts[0]], acts[1]);
    RefusalsExtend(whole, [], acts[0]);
    assert Refusals(whole, []) == [];
  }

  /** The own failures of a reader that was joined: what its thread returned. */
  function OwnOfReader(acts: seq<Act>, h: Helper, s: Stream, reader: OutputReader?): seq<CleanupFailure> {
    if reader != null && Join(h) in acts then StreamFailures(s, reader.worker) else []
  }

  /** The own failure of a joined stdin writer; a broken pipe is none. */
  function OwnOfWriter(acts: seq<Act>, writer: StdinThread?): seq<CleanupFailure> {
    if writer != null && Join(StdinWriter) in acts && writer.worker.Err? && !writer.worker.error.kind.BrokenPipe?
    then [Stdin(writer.worker.error)] else []
  }

  /** Everything that went wrong with the helpers, from the record and the threads. */
  ghost function HelperTroubles(acts: seq<Act>, stdout: OutputReader?, stderr: OutputReader?,
                                stdin: StdinThread?): multiset<CleanupFailure>
  {
    BagOf(OwnOfReader(acts, StdoutReader, Stdout, stdout)) + BagOf(OwnOfReader(acts, StderrReader, Stderr, stderr))
    + BagOf(OwnOfWriter(acts, stdin)) + BagOf(Refusals(acts, acts))
  }

  lemma ReplacingKeepsFailures(s: Stream, result: CaptureResult, output: CapturedOutput)
    ensures StreamFailures(s, ReplaceOutput(result, output)) == StreamFailures(s, result)
  {
  }

  lemma OwnOfEnded(acts: seq<Act>, h: Helper, s: Stream, reader: OutputReader?, books: Option<Channel>,
                   outcome: Outcome<HelperEnd>, deadline: Duration)
    requires ReaderEnds(reader, books, outcome)
    requires HelperRecord(acts, h, reader != null, WasDetached(outcome), outcome.cancellation, deadline)
    ensures StreamFailures(s, ReaderResult(outcome.end)) == OwnOfReader(acts, h, s, reader)
  {
    if reader != null {
      TwoDecisive(acts, h, WasDetached(outcome), outcome.cancellation, deadline);
      if outcome.end.value.Joined? && books.Some? {
        var c := books.value;
        ReplacingKeepsFailures(s, reader.worker,
          CapturedOutput(if c.transferred then [] else c.bytes, c.truncated, c.complete));
      }
    }
    hide HelperRecord, Decisive, ReplaceOutput;
  }

  lemma OwnOfEndedWriter(acts: seq<Act>, writer: StdinThread?, outcome: Outcome<StdinResult>, deadline: Duration)
    requires HelperRecord(acts, StdinWriter, writer != null, outcome.end.None?, outcome.cancellation, deadline)
    requires outcome.end.Some? ==> outcome.end.value == if writer == null then None else AcceptBrokenPipe(writer.worker)
    ensures StdinFailures(WriterResult(outcome.end)) == OwnOfWriter(acts, writer)
  {
    if writer != null {
      TwoDecisive(acts, StdinWriter, outcome.end.None?, outcome.cancellation, deadline);
    }
    hide HelperRecord, Decisive;
  }

  lemma RefusalsAreLate(acts: seq<Act>, out: bool, err: bool, inp: bool, ends: HelperEnds, d: Duration)
    requires HelperRecord(acts, StdoutReader, out, WasDetached(ends.out), ends.out.cancellation, d)
    requires HelperRecord(acts, StderrReader, err, WasDetached(ends.err), ends.err.cancellation, d)
    requires HelperRecord(acts, StdinWriter, inp, ends.inp.end.None?, ends.inp.cancellation, d)
    ensures BagOf(Refusals(acts, acts))
            == BagOf(ReaderCancellation(Stdout, ends.out)) + BagOf(ReaderCancellation(Stderr, ends.err))
               + BagOf(WriterCancellation(ends.inp))
  {
    RefusalsByHelper(acts, acts);
    RefusalsOfHelper(acts, StdoutReader, out, WasDetached(ends.out), ends.out.cancellation, d);
    RefusalsOfHelper(acts, StderrReader, err, WasDetached(ends.err), ends.err.cancellation, d);
    RefusalsOfHelper(acts, StdinWriter, inp, ends.inp.end.None?, ends.inp.cancellation, d);
    LateFailuresAreRefusals(ends);
    hide HelperRecord, Refusals, RefusalsOf, WasDetached, CancelFailures, ReaderCancellation, WriterCancellation, BagOf;
  }

  lemma LateFailuresAreRefusals(ends: HelperEnds)
    ensures ReaderCancellation(Stdout, ends.out) == CancelFailures(StdoutReader, ends.out.cancellation)
    ensures ReaderCancellation(Stderr, ends.err) == CancelFailures(StderrReader, ends.err.cancellation)
    ensures WriterCancellation(ends.inp) == CancelFailures(StdinWriter, ends.inp.cancellation)
  {
  }

  lemma HelperFailuresAsBags(ends: HelperEnds)
    ensures BagOf(HelperFailures(ends))
            == BagOf(StreamFailures(Stdout, ReaderResult(ends.out.end)))
               + BagOf(StreamFailures(Stderr, ReaderResult(ends.err.end)))
               + BagOf(StdinFailures(WriterResult(ends.inp.end)))
               + (BagOf(ReaderCancellation(Stdout, ends.out)) + BagOf(ReaderCancellation(Stderr, ends.err))
                  + BagOf(WriterCancellation(ends.inp)))
  {
    hide StreamFailures, ReaderResult, WriterResult, StdinFailures, ReaderCancellation, WriterCancellation;
  }

  /** The failures attached for the helpers are exactly those that happened to them. */
  lemma HelpersReportTroubles(stdout: OutputReader?, stderr: OutputReader?, stdin: StdinThread?,
                              budget: TotalOutputBudget?, ends: HelperEnds, p: Passage, acts: seq<Act>, start: Duration)
    requires AllFinished(stdout, stderr, stdin, budget, ends, p, acts, start)
    ensures multiset(HelperFailures(ends)) == HelperTroubles(acts, stdout, stderr, stdin)
  {
    hide HelperRecord, Refusals, StreamFailures, ReaderResult, WriterResult, StdinFailures, HelperFailures;
    hide ReaderCancellation, WriterCancellation, WasDetached, ReaderEnds, OwnOfReader, OwnOfWriter, Passes, Shutdown;
    var d := Deadline(start);
    OwnOfEnded(acts, StdoutReader, Stdout, stdout, Books(p.out, Stdout), ends.out, d);
    OwnOfEnded(acts, StderrReader, Stderr, stderr, Books(p.err, Stderr), ends.err, d);
    OwnOfEndedWriter(acts, stdin, ends.inp, d);
    RefusalsAreLate(acts, stdout != null, stderr != null, stdin != null, ends, d);
    HelperFailuresAsBags(ends);
  }

  // ---------------------------------------------------------------------
  // Whole stops and startups

  /** The clock is read, and may fail, when the output is collected. */
  function ClockTrouble(reason: StopReason, elapsed: Result<Duration, TimeError>,
                        termination: Termination): seq<CleanupFailure>
  {
    if termination.Terminated? && elapsed.Err?
       && !(reason.WaitFailed? || (reason.TimeFailed? && reason.status.None?))
    then [Time(elapsed.error)] else []
  }

  /** Nothing that went wrong is lost, nothing is reported twice and nothing else is
      reported: the cleanup list holds the failures of the calls to the child, of the
      clock, of the threads that were joined, and of the requests to them. */
  lemma EveryTroubleIsReported(error: CommandError, reason: StopReason, elapsed: Result<Duration, TimeError>,
                               treeManaged: bool, stdout: OutputReader, stderr: OutputReader, stdin: StdinThread?,
                               budget: TotalOutputBudget?, now: Duration, before: Option<Ledger>, exit: Option<Ledger>,
                               stop: Stopping)
    requires StopRecord(reason, treeManaged, stdout, stderr, stdin, budget, now, before, exit, stop)
    requires ErrorOf(error, reason, elapsed, stop.termination, stop.ends, stop.passage.start, exit)
    ensures multiset(error.cleanupFailures)
            == multiset(ReportedOf(stop.calls, FellBack(stop.calls)))
               + multiset(ClockTrouble(reason, elapsed, stop.termination))
               + HelperTroubles(stop.acts, stdout, stderr, stdin)
  {
    StopKeepsEveryFailure(error, reason, elapsed, stop.termination, stop.ends, stop.passage.start, exit);
    TerminationReports(treeManaged, ObservedStatus(reason), stop.calls, stop.termination);
    HelpersReportTroubles(stdout, stderr, stdin, budget, stop.ends, stop.passage, stop.acts, stop.start);
    hide ErrorOf, Explains, AllFinished, HelperTroubles, HelperFailures, ReportedOf;
  }

  /** The same for the cleanup of a startup. */
  lemma EveryStartupTroubleIsReported(hadChild: bool, treeManaged: bool, stdout: OutputReader?, stderr: OutputReader?,
                                      stdin: StdinThread?, budget: TotalOutputBudget?, now: Duration, report: Cleaning)
    requires ChildStopped(hadChild, treeManaged, report)
    requires Helped(stdout, stderr, stdin, budget, now, report)
    ensures multiset(CleaningFailures(report))
            == multiset(ReportedOf(report.calls, FellBack(report.calls)))
               + HelperTroubles(report.acts, stdout, stderr, stdin)
  {
    if hadChild {
      TerminationReports(treeManaged, None, report.calls, report.termination.value);
    }
    HelpersReportTroubles(stdout, stderr, stdin, budget, report.ends, report.passage, report.acts, report.start);
    hide Explains, AllFinished, HelperTroubles, HelperFailures;
  }

  /** A run that completes normally reports the clock's failure and those of all
      threads, in resource order, and so succeeds exactly if there are none. */
  lemma EveryCompletionTroubleIsReported(elapsed: Result<Duration, TimeError>, stdout: OutputReader,
                                         stderr: OutputReader, stdin: StdinThread?, budget: TotalOutputBudget?,
                                         ends: HelperEnds, p: Passage)
    requires AllJoined(stdout, stderr, stdin, budget, ends, p)
    ensures CollectedFailures(elapsed, ends)
            == (if elapsed.Err? then [Time(elapsed.error)] else [])
               + StreamFailures(Stdout, stdout.worker) + StreamFailures(Stderr, stderr.worker)
               + (if stdin != null && stdin.worker.Err? && !stdin.worker.error.kind.BrokenPipe?
                  then [Stdin(stdin.worker.error)] else [])
  {
    JoinedFailures(Stdout, stdout, Books(p.out, Stdout), ends.out);
    JoinedFailures(Stderr, stderr, Books(p.err, Stderr), ends.err);
    hide StreamFailures, ReaderResult, Passes, ReaderEnds;
  }

  lemma JoinedFailures(s: Stream, reader: OutputReader, books: Option<Channel>, outcome: Outcome<HelperEnd>)
    requires ReaderEnds(reader, books, outcome) && WasJoined(outcome)
    ensures StreamFailures(s, ReaderResult(outcome.end)) == StreamFailures(s, reader.worker)
  {
    if books.Some? {
      var c := books.value;
      ReplacingKeepsFailures(s, reader.worker,
        CapturedOutput(if c.transferred then [] else c.bytes, c.truncated, c.complete));
    }
    hide StreamFailures, ReplaceOutput;
  }
}
