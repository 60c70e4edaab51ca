/** Turning the outcomes of the helper threads into one result or one error
    (`src/command_runner/internal/command_io.rs`, `output_collector.rs`). */
module CommandIo {
  import opened Basics
  import opened Clocks
  import opened CommandErrors
  import opened OutputBudget
  import opened OutputCollector
  import opened OutputReaders
  import opened HelperShutdown

  datatype CaptureFailure = ReadFailure(source: IoError) | WriteFailure(path: Path, source: IoError)

  /** Retained bytes and failures, in the order in which the reader met them. */
  function SplitOutputResult(result: CaptureResult): (CapturedOutput, seq<CaptureFailure>) {
    match result
    case Ok(output) => (output, [])
    case Err(ReadError(source, output)) => (output, [ReadFailure(source)])
    case Err(WriteError(path, source, output)) => (output, [WriteFailure(path, source)])
    case Err(ReadAfterWrite(path, w, r, output)) => (output, [WriteFailure(path, w), ReadFailure(r)])
  }

  function OutputCleanupFailure(s: Stream, failure: CaptureFailure): CleanupFailure {
    match (s, failure)
    case (Stdout, ReadFailure(source)) => StdoutRead(source)
    case (Stderr, ReadFailure(source)) => StderrRead(source)
    case (Stdout, WriteFailure(path, source)) => StdoutWrite(path, source)
    case (Stderr, WriteFailure(path, source)) => StderrWrite(path, source)
  }

  function AsCleanupFailures(s: Stream, failures: seq<CaptureFailure>): (r: seq<CleanupFailure>)
    ensures |r| == |failures|
    ensures forall i :: 0 <= i < |r| ==> r[i] == OutputCleanupFailure(s, failures[i])
  {
    if failures == [] then []
    else [OutputCleanupFailure(s, failures[0])] + AsCleanupFailures(s, failures[1..])
  }

  function ReaderReason(s: Stream, failure: CaptureFailure): Reason {
    match failure
    case ReadFailure(source) => ReadOutputFailed(s, source)
    case WriteFailure(path, source) => WriteOutputFailed(s, path, source)
  }

  /** Every failure of one reader: the tee write before a later read. */
  function StreamFailures(s: Stream, result: CaptureResult): seq<CleanupFailure> {
    AsCleanupFailures(s, SplitOutputResult(result).1)
  }

  function ClockFailures(elapsed: Result<Duration, TimeError>): seq<CleanupFailure> {
    if elapsed.Err? then [Time(elapsed.error)] else []
  }

  function StdinFailures(stdin: StdinResult): seq<CleanupFailure> {
    if stdin.Some? then [Stdin(stdin.value)] else []
  }

  /** Every failure known when a run is collected, most important first. */
  function CollectionFailures(elapsed: Result<Duration, TimeError>, stdout: CaptureResult, stderr: CaptureResult,
                              stdin: StdinResult): seq<CleanupFailure>
  {
    ClockFailures(elapsed) + StreamFailures(Stdout, stdout) + StreamFailures(Stderr, stderr) + StdinFailures(stdin)
  }

  /** What each result of a reader is reported as: the tee write before a later read,
      each under the name of its stream. */
  lemma StreamFailuresTell(result: CaptureResult)
    ensures StreamFailures(Stdout, result) == match result
      case Ok(_) => []
      case Err(ReadError(r, _)) => [StdoutRead(r)]
      case Err(WriteError(path, w, _)) => [StdoutWrite(path, w)]
      case Err(ReadAfterWrite(path, w, r, _)) => [StdoutWrite(path, w), StdoutRead(r)]
    ensures StreamFailures(Stderr, result) == match result
      case Ok(_) => []
      case Err(ReadError(r, _)) => [StderrRead(r)]
      case Err(WriteError(path, w, _)) => [StderrWrite(path, w)]
      case Err(ReadAfterWrite(path, w, r, _)) => [StderrWrite(path, w), StderrRead(r)]
  {
  }

  /** A stream's cleanup failures name the stream and tell everything about its
      reader's result but the captured bytes: nothing else has the same ones. */
  lemma StreamFailuresAreFaithful(s: Stream, result: CaptureResult, s': Stream, result': CaptureResult)
    requires StreamFailures(s, result) == StreamFailures(s', result')
    ensures forall output :: ReplaceOutput(result, output) == ReplaceOutput(result', output)
    ensures result.Err? ==> s == s'
  {
    StreamFailuresTell(result);
    StreamFailuresTell(result');
    hide StreamFailures;
    var x, y := StreamFailures(s, result), StreamFailures(s', result');
    assert |x| == |y| && forall i :: 0 <= i < |x| ==> x[i] == y[i];
  }

  /** A stream's failures carry that stream's rank. */
  lemma StreamFailuresRank(s: Stream, result: CaptureResult)
    ensures forall f :: f in StreamFailures(s, result) ==> Rank(f) == if s.Stdout? then 4 else 5
  {
  }

  /** The collection order is already the canonical resource order. */
  lemma CollectionIsSorted(elapsed: Result<Duration, TimeError>, stdout: CaptureResult, stderr: CaptureResult,
                           stdin: StdinResult)
    ensures RankSorted(CollectionFailures(elapsed, stdout, stderr, stdin))
  {
    StreamFailuresRank(Stdout, stdout);
    StreamFailuresRank(Stderr, stderr);
    hide StreamFailures;
    var a, b, c := ClockFailures(elapsed), StreamFailures(Stdout, stdout), StreamFailures(Stderr, stderr);
    var d := StdinFailures(stdin);
    var all := a + b + c + d;
    forall i, j | 0 <= i < j < |all| ensures Rank(all[i]) <= Rank(all[j]) {
      InPart(a, b, c, d, i);
      InPart(a, b, c, d, j);
    }
  }

  lemma InPart(a: seq<CleanupFailure>, b: seq<CleanupFailure>, c: seq<CleanupFailure>, d: seq<CleanupFailure>, i: nat)
    requires i < |a + b + c + d|
    ensures var x := (a + b + c + d)[i];
      if i < |a| then x in a else if i < |a + b| then x in b else if i < |a + b + c| then x in c else x in d
  {
  }

  /** Sorting a list that is in order changes nothing. */
  lemma SortedIsFixed(xs: seq<CleanupFailure>)
    requires RankSorted(xs)
    ensures SortByRank(xs) == xs
  {
    SortIsStable(xs);
    StableOrderIsUnique(SortByRank(xs), xs, xs);
  }

  lemma TailSortedIsFixed(first: CleanupFailure, rest: seq<CleanupFailure>)
    requires RankSorted([first] + rest)
    ensures SortByRank(rest) == rest
  {
    forall i, j | 0 <= i < j < |rest| ensures Rank(rest[i]) <= Rank(rest[j]) {
      assert rest[i] == ([first] + rest)[i + 1] && rest[j] == ([first] + rest)[j + 1];
    }
    SortedIsFixed(rest);
  }

  lemma SplitKeepsCapture(result: CaptureResult)
    ensures SplitOutputResult(result).0 == CaptureOf(result)
  {
  }

  lemma FirstFailure(s: Stream, failures: seq<CaptureFailure>)
    ensures AsCleanupFailures(s, failures) == if failures == [] then []
      else [OutputCleanupFailure(s, failures[0])] + AsCleanupFailures(s, failures[1..])
  {
  }

  /** The error built when the first failure becomes primary. */
  twostate predicate Collected(new error: CommandError, all: seq<CleanupFailure>, status: ExitStatus,
                               captured: CapturedPair, elapsed: Result<Duration, TimeError>)
    reads error
  {
    && fresh(error)
    && PrimaryCleanup(error.reason).Some?
    && error.AsCleanup() == all
    && error.Reachable() == Some(captured)
    && error.output == (if elapsed.Ok? then Some(CommandOutput(status, captured, elapsed.value)) else None)
  }

  /** Makes the stream failure `failure` primary, with the complete output attached. */
  method MapOutputReaderError(status: ExitStatus, elapsed: Duration, s: Stream, failure: CaptureFailure,
                              failed: CapturedOutput, other: CapturedOutput) returns (error: CommandError)
    ensures fresh(error) && error.cleanupFailures == []
    ensures PrimaryCleanup(error.reason) == Some(OutputCleanupFailure(s, failure))
    ensures error.output.Some? && error.output.value.status == status && error.output.value.elapsed == elapsed
    ensures error.output.value.captured.Get(s) == failed && error.output.value.captured.Get(s.Other()) == other
  {
    var captured := match s
      case Stdout => CapturedPair(failed, other)
      case Stderr => CapturedPair(other, failed);
    error := new CommandError.FromReason(ReaderReason(s, failure), Some(CommandOutput(status, captured, elapsed)));
  }

  /** What remains of the failures once the first one became primary. */
  function OtherFailures(elapsed: Result<Duration, TimeError>, outFailures: seq<CaptureFailure>,
                         errFailures: seq<CaptureFailure>, stdin: StdinResult): seq<CleanupFailure>
  {
    if elapsed.Err? then
      AsCleanupFailures(Stdout, outFailures) + AsCleanupFailures(Stderr, errFailures) + StdinFailures(stdin)
    else if outFailures != [] then
      AsCleanupFailures(Stdout, outFailures[1..]) + AsCleanupFailures(Stderr, errFailures) + StdinFailures(stdin)
    else if errFailures != [] then AsCleanupFailures(Stderr, errFailures[1..]) + StdinFailures(stdin)
    else []
  }

  lemma FirstAndOthers(elapsed: Result<Duration, TimeError>, stdout: CaptureResult, stderr: CaptureResult,
                       stdin: StdinResult, first: CleanupFailure)
    requires var out, err := SplitOutputResult(stdout).1, SplitOutputResult(stderr).1;
      first == if elapsed.Err? then Time(elapsed.error)
      else if out != [] then OutputCleanupFailure(Stdout, out[0])
      else if err != [] then OutputCleanupFailure(Stderr, err[0])
      else if stdin.Some? then Stdin(stdin.value) else first
    ensures var out, err := SplitOutputResult(stdout).1, SplitOutputResult(stderr).1;
      var all := CollectionFailures(elapsed, stdout, stderr, stdin);
      var others := OtherFailures(elapsed, out, err, stdin);
      if elapsed.Ok? && out == [] && err == [] && stdin.None? then all == []
      else all == [first] + others && SortByRank(others) == others
  {
    CollectionIsSorted(elapsed, stdout, stderr, stdin);
    hide AsCleanupFailures, OutputCleanupFailure, RankSorted, SplitOutputResult, SortByRank;
    var out, err := SplitOutputResult(stdout).1, SplitOutputResult(stderr).1;
    var b, c, d := AsCleanupFailures(Stdout, out), AsCleanupFailures(Stderr, err), StdinFailures(stdin);
    var all, others := CollectionFailures(elapsed, stdout, stderr, stdin), OtherFailures(elapsed, out, err, stdin);
    FirstFailure(Stdout, out);
    FirstFailure(Stderr, err);
    if elapsed.Ok? && out == [] && err == [] && stdin.None? {
      assert all == [];
    } else {
      assert all == [first] + others by {
        if elapsed.Err? {
          assert all == [first] + b + c + d;
          PullFirst(first, [], b, c, d);
        } else if out != [] {
          PullFirst(first, [], AsCleanupFailures(Stdout, out[1..]), c, d);
          assert all == [] + b + c + d && [] + b == [first] + AsCleanupFailures(Stdout, out[1..]);
        } else if err != [] {
          PullFirst(first, [], AsCleanupFailures(Stderr, err[1..]), d, []);
          assert all == [] + [] + c + d && [] + [] + c == [first] + AsCleanupFailures(Stderr, err[1..]);
        } else {
          assert all == [] + [] + [] + [first];
        }
      }
      TailSortedIsFixed(first, others);
    }
  }

  lemma PullFirst(first: CleanupFailure, w: seq<CleanupFailure>, x: seq<CleanupFailure>, y: seq<CleanupFailure>,
                  z: seq<CleanupFailure>)
    ensures [first] + x + y + z == [first] + (x + y + z) && x + y + [] == x + y && w + x + y == w + (x + y)
  {
  }

  /** Collection succeeds exactly when nothing failed; otherwise the first failure
      becomes primary, every other one becomes cleanup evidence, and both streams'
      captures stay reachable. */
  twostate predicate CollectionResult(new result: Result<CommandOutput, CommandError>, status: ExitStatus,
                                      elapsed: Result<Duration, TimeError>, stdout: CaptureResult,
                                      stderr: CaptureResult, new stdin: StdinResult)
    reads if result.Err? then {result.error} else {}
  {
    var captured := CapturedPair(CaptureOf(stdout), CaptureOf(stderr));
    var all := CollectionFailures(elapsed, stdout, stderr, stdin);
    && (result.Ok? <==> all == [])
    && (result.Ok? ==> elapsed.Ok? && result.value == CommandOutput(status, captured, elapsed.value))
    && (result.Err? ==> Collected(result.error, all, status, captured, elapsed))
  }

  method CollectOutputResults(status: ExitStatus, elapsed: Result<Duration, TimeError>, stdout: CaptureResult,
                              stderr: CaptureResult, stdin: StdinResult)
    returns (result: Result<CommandOutput, CommandError>)
    ensures CollectionResult(result, status, elapsed, stdout, stderr, stdin)
  {
    hide CollectionFailures, AsCleanupFailures, OutputCleanupFailure, RankSorted, SplitOutputResult, SortByRank,
      OtherFailures;
    var (out, outFailures) := SplitOutputResult(stdout);
    var (err, errFailures) := SplitOutputResult(stderr);
    SplitKeepsCapture(stdout);
    SplitKeepsCapture(stderr);
    var error;
    ghost var first;
    if elapsed.Err? {
      error := new CommandError.FromReason(TimeFailed(elapsed.error), None);
      error.WithCapturedOutput(CapturedPair(out, err));
      first := Time(elapsed.error);
    } else if outFailures != [] {
      error := MapOutputReaderError(status, elapsed.value, Stdout, outFailures[0], out, err);
      first := OutputCleanupFailure(Stdout, outFailures[0]);
    } else if errFailures != [] {
      error := MapOutputReaderError(status, elapsed.value, Stderr, errFailures[0], err, out);
      first := OutputCleanupFailure(Stderr, errFailures[0]);
    } else if stdin.Some? {
      error := new CommandError.FromReason(WriteInputFailed(stdin.value), None);
      error.WithOutput(CommandOutput(status, CapturedPair(out, err), elapsed.value));
      first := Stdin(stdin.value);
    } else {
      FirstAndOthers(elapsed, stdout, stderr, stdin, Time(TimeError(0)));
      return Ok(CommandOutput(status, CapturedPair(out, err), elapsed.value));
    }
    FirstAndOthers(elapsed, stdout, stderr, stdin, first);
    var cleanup := OtherFailures(elapsed, outFailures, errFailures, stdin);
    error.WithCleanupFailures(cleanup);
    assert [] + cleanup == cleanup;
    result := Err(error);
  }

  // ---------------------------------------------------------------------
  // After a stop

  function ReaderCancellation(s: Stream, outcome: Outcome<HelperEnd>): seq<CleanupFailure> {
    if outcome.cancellation.None? then []
    else
      var source := outcome.cancellation.value;
      [if s.Stdout? then StdoutCancellation(source) else StderrCancellation(source)]
  }

  function WriterCancellation(outcome: Outcome<StdinResult>): seq<CleanupFailure> {
    if outcome.cancellation.Some? then [StdinCancellation(outcome.cancellation.value)] else []
  }

  /** The cancellation failures still to be reported, in helper order. */
  function CancellationFailures(ends: HelperEnds): seq<CleanupFailure> {
    ReaderCancellation(Stdout, ends.out) + ReaderCancellation(Stderr, ends.err) + WriterCancellation(ends.inp)
  }

  /** A detached reader counts as a success with its snapshot; so does an absent one with nothing. */
  function ReaderResult(end: Option<HelperEnd>): CaptureResult {
    match end
    case None => Ok(CapturedOutput([], false, false))
    case Some(Joined(result)) => result
    case Some(Detached(output)) => Ok(output)
  }

  function WriterResult(end: Option<StdinResult>): StdinResult {
    if end.Some? then end.value else None
  }

  function ReaderFailures(s: Stream, outcome: Outcome<HelperEnd>): seq<CleanupFailure> {
    StreamFailures(s, ReaderResult(outcome.end)) + ReaderCancellation(s, outcome)
  }

  function WriterFailures(outcome: Outcome<StdinResult>): seq<CleanupFailure> {
    StdinFailures(WriterResult(outcome.end)) + WriterCancellation(outcome)
  }

  /** Every helper failure, each helper's own failures before its cancellation failure. */
  function HelperFailures(ends: HelperEnds): seq<CleanupFailure> {
    ReaderFailures(Stdout, ends.out) + ReaderFailures(Stderr, ends.err) + WriterFailures(ends.inp)
  }

  /** Success, or the error, that `elapsed` and the ends of all helpers amount to. */
  twostate predicate CollectionOf(new result: Result<CommandOutput, CommandError>, status: ExitStatus,
                                  elapsed: Result<Duration, TimeError>, ends: HelperEnds)
    reads if result.Err? then {result.error} else {}
  {
    CollectionResult(result, status, elapsed, ReaderResult(ends.out.end), ReaderResult(ends.err.end),
      WriterResult(ends.inp.end))
  }

  /** Every helper was joined without any cancellation, and shows what it or the budget held then. */
  ghost predicate AllJoined(stdout: OutputReader, stderr: OutputReader, stdin: StdinThread?, budget: TotalOutputBudget?,
                            ends: HelperEnds, p: Passage)
  {
    && WasJoined(ends.out) && WasJoined(ends.err)
    && ends.inp.end == Some(if stdin == null then None else AcceptBrokenPipe(stdin.worker))
    && ends.out.cancellation == None && ends.err.cancellation == None && ends.inp.cancellation == None
    && Passes(budget, p, ends)
    && ReaderEnds(stdout, Books(p.out, Stdout), ends.out) && ReaderEnds(stderr, Books(p.err, Stderr), ends.err)
  }

  /** Normal completion: every helper is joined before the clock is read. */
  method CollectOutput(status: ExitStatus, elapsed: Result<Duration, TimeError>, stdout: OutputReader,
                       stderr: OutputReader,
                       stdin: StdinThread?, budget: TotalOutputBudget?)
    returns (result: Result<CommandOutput, CommandError>, ghost ends: HelperEnds, ghost p: Passage)
    requires Wired(stdout, stderr, budget)
    modifies budget
    ensures CollectionOf(result, status, elapsed, ends)
    ensures AllJoined(stdout, stderr, stdin, budget, ends, p)
    ensures p.start == old(LedgerOf(budget)) && p.end == LedgerOf(budget)
  {
    hide ReplaceOutput, Advances, CollectionFailures;
    RunReaders(budget, true, true);
    ghost var seenOut := LedgerOf(budget);
    var out := stdout.Join();
    assert LedgerOf(budget) == AfterEndIf(seenOut, Stdout, Some(Joined(out)));
    RunReaders(budget, false, true);
    ghost var seenErr := LedgerOf(budget);
    var err := stderr.Join();
    var inp := if stdin == null then None else AcceptBrokenPipe(stdin.worker);
    ends := HelperEnds(Outcome(Some(Joined(out)), None), Outcome(Some(Joined(err)), None), Outcome(Some(inp), None));
    p := Passage(old(LedgerOf(budget)), seenOut, seenErr, LedgerOf(budget));
    hide Take, MovesOn;
    result := CollectOutputResults(status, elapsed, out, err, inp);
  }

  /** `elapsed` is what the clock answers once the helpers are done. */
  method CancelAndCollect(status: ExitStatus, elapsed: Result<Duration, TimeError>, stdout: OutputReader,
                          stderr: OutputReader, stdin: StdinThread?, budget: TotalOutputBudget?,
                          log: Log, clock: Clock)
    returns (result: Result<CommandOutput, CommandError>, cancellations: seq<CleanupFailure>,
             ghost ends: HelperEnds, ghost p: Passage, ghost trace: seq<Act>, ghost start: Duration)
    requires Wired(stdout, stderr, budget)
    modifies log, clock, budget
    ensures log.acts == old(log.acts) + trace && old(clock.now) <= start
    ensures AllFinished(stdout, stderr, stdin, budget, ends, p, trace, start)
    ensures p.start == old(LedgerOf(budget)) && p.end == LedgerOf(budget)
    ensures cancellations == CancellationFailures(ends)
    ensures CollectionOf(result, status, elapsed, ends)
  {
    hide AllFinished, CollectionFailures;
    var finished;
    finished, p, trace, start := FinishHelpers(stdout, stderr, stdin, budget, log, clock);
    ends := finished;
    cancellations := [];
    if finished.out.cancellation.Some? {
      cancellations := cancellations + [StdoutCancellation(finished.out.cancellation.value)];
    }
    if finished.err.cancellation.Some? {
      cancellations := cancellations + [StderrCancellation(finished.err.cancellation.value)];
    }
    if finished.inp.cancellation.Some? {
      cancellations := cancellations + [StdinCancellation(finished.inp.cancellation.value)];
    }
    result := CollectOutputResults(status, elapsed, ReaderResult(finished.out.end), ReaderResult(finished.err.end),
      WriterResult(finished.inp.end));
  }

  method PushReaderFailures(before: seq<CleanupFailure>, s: Stream, outcome: Outcome<HelperEnd>)
    returns (failures: seq<CleanupFailure>)
    ensures failures == before + ReaderFailures(s, outcome)
  {
    failures := before;
    if outcome.end.Some? && outcome.end.value.Joined? {
      var (_, own) := SplitOutputResult(outcome.end.value.result);
      failures := failures + AsCleanupFailures(s, own);
    }
    if outcome.cancellation.Some? {
      match s {
        case Stdout => failures := failures + [StdoutCancellation(outcome.cancellation.value)];
        case Stderr => failures := failures + [StderrCancellation(outcome.cancellation.value)];
      }
    }
  }

  method PushStdinFailures(before: seq<CleanupFailure>, outcome: Outcome<StdinResult>)
    returns (failures: seq<CleanupFailure>)
    ensures failures == before + WriterFailures(outcome)
  {
    failures := before;
    if outcome.end.Some? && outcome.end.value.Some? {
      failures := failures + [Stdin(outcome.end.value.value)];
    }
    if outcome.cancellation.Some? {
      failures := failures + [StdinCancellation(outcome.cancellation.value)];
    }
  }

  method CancelAndJoinStartedHelpers(stdout: OutputReader?, stderr: OutputReader?, stdin: StdinThread?,
                                     budget: TotalOutputBudget?, log: Log, clock: Clock)
    returns (failures: seq<CleanupFailure>, ghost ends: HelperEnds, ghost p: Passage,
             ghost trace: seq<Act>, ghost start: Duration)
    requires Wired(stdout, stderr, budget)
    modifies log, clock, budget
    ensures log.acts == old(log.acts) + trace && old(clock.now) <= start
    ensures AllFinished(stdout, stderr, stdin, budget, ends, p, trace, start)
    ensures p.start == old(LedgerOf(budget)) && p.end == LedgerOf(budget)
    ensures failures == HelperFailures(ends)
  {
    hide AllFinished, ReaderFailures, WriterFailures;
    var finished;
    finished, p, trace, start := FinishHelpers(stdout, stderr, stdin, budget, log, clock);
    ends := finished;
    failures := PushReaderFailures([], Stdout, finished.out);
    failures := PushReaderFailures(failures, Stderr, finished.err);
    failures := PushStdinFailures(failures, finished.inp);
    assert [] + ReaderFailures(Stdout, ends.out) == ReaderFailures(Stdout, ends.out);
  }
}
