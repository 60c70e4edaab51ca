/** Stopping a run and building its error
    (`src/command_runner/internal/running_command.rs`). */
module Finalization {
  import opened Basics
  import opened Clocks
  import opened CommandErrors
  import opened StopReasons
  import opened OutputBudget
  import opened OutputCollector
  import opened OutputReaders
  import opened ProcessTermination
  import opened HelperShutdown
  import opened CommandIo

  /** What stopping a run did, as recorded by the parts it drives. */
  datatype Stopping = Stopping(calls: seq<Call>, termination: Termination,
                               ends: HelperEnds, passage: Passage, acts: seq<Act>, start: Duration)

  /** The helpers' output is collected; otherwise only their failures are. */
  predicate Collects(reason: StopReason, termination: Termination) {
    termination.Terminated? && RetainsTerminationOutput(reason)
  }

  function CollectedFailures(elapsed: Result<Duration, TimeError>, ends: HelperEnds): seq<CleanupFailure> {
    CollectionFailures(elapsed, ReaderResult(ends.out.end), ReaderResult(ends.err.end), WriterResult(ends.inp.end))
  }

  /** All evidence in the order in which the code attaches it. */
  function Evidence(reason: StopReason, elapsed: Result<Duration, TimeError>, termination: Termination,
                    ends: HelperEnds): seq<CleanupFailure>
  {
    var stopped := termination.failures;
    if !Collects(reason, termination) then stopped + HelperFailures(ends)
    else if reason.OutputLimitExceeded? then
      stopped + CancellationFailures(ends) + CollectedFailures(elapsed, ends)
    else CollectedFailures(elapsed, ends) + stopped + CancellationFailures(ends)
  }

  function Captures(ends: HelperEnds): CapturedPair {
    CapturedPair(CaptureOf(ReaderResult(ends.out.end)), CaptureOf(ReaderResult(ends.err.end)))
  }

  /** The stream captures the final error gives access to; `shot` is the ledger when
      the shutdown starts, `exit` the ledger when the error is built. */
  function FinalCapture(reason: StopReason, elapsed: Result<Duration, TimeError>, termination: Termination,
                        ends: HelperEnds, shot: Option<Ledger>, exit: Option<Ledger>): Option<CapturedPair>
  {
    if !Collects(reason, termination) then
      if reason.OutputLimitExceeded? && shot.Some?
      then Some(CapturedPair(Snapshot(shot.value, Stdout), Snapshot(shot.value, Stderr)))
      else None
    else if reason.OutputLimitExceeded? && CollectedFailures(elapsed, ends) != [] && exit.Some? then
      var joined := Some(Captures(ends));
      Some(CapturedPair(WithJoined(exit.value, Stdout, joined), WithJoined(exit.value, Stderr, joined)))
    else Some(Captures(ends))
  }

  function FinalStatus(reason: StopReason, termination: Termination): ExitStatus
    requires termination.Terminated?
  {
    if ObservedStatus(reason).Some? then ObservedStatus(reason).value else termination.status
  }

  /** The error a stopped run ends in: the stop reason is primary, all evidence is
      attached in rank order, and the captures are those of `FinalCapture`, with
      status and duration exactly when both are known and the reason is not the limit. */
  ghost predicate ErrorOf(error: CommandError, reason: StopReason, elapsed: Result<Duration, TimeError>,
                          termination: Termination, ends: HelperEnds, shot: Option<Ledger>, exit: Option<Ledger>)
    reads error
  {
    && error.reason == PrimaryReason(reason)
    && error.cleanupFailures == SortByRank(Evidence(reason, elapsed, termination, ends))
    && error.Reachable() == FinalCapture(reason, elapsed, termination, ends, shot, exit)
    && error.output == (
         if Collects(reason, termination) && !reason.OutputLimitExceeded? && elapsed.Ok?
         then Some(CommandOutput(FinalStatus(reason, termination), Captures(ends), elapsed.value)) else None)
  }

  lemma TwoBatches(a: seq<CleanupFailure>, b: seq<CleanupFailure>)
    ensures SortByRank(SortByRank([] + a) + b) == SortByRank(a + b)
  {
    assert [] + a == a;
    SortAbsorbsSort(a, b);
  }

  lemma ThreeBatches(a: seq<CleanupFailure>, b: seq<CleanupFailure>, c: seq<CleanupFailure>)
    ensures SortByRank(SortByRank(SortByRank([] + a) + b) + c) == SortByRank(a + b + c)
  {
    TwoBatches(a, b);
    SortAbsorbsSort(a + b, c);
  }

  method FinishWithoutStatus(primary: CommandError, stdout: OutputReader, stderr: OutputReader, stdin: StdinThread?,
                             budget: TotalOutputBudget?, log: Log, clock: Clock)
    returns (ghost ends: HelperEnds, ghost p: Passage, ghost acts: seq<Act>, ghost start: Duration)
    requires Wired(stdout, stderr, budget)
    modifies primary`cleanupFailures, log, clock, budget
    ensures log.acts == old(log.acts) + acts && old(clock.now) <= start
    ensures AllFinished(stdout, stderr, stdin, budget, ends, p, acts, start)
    ensures p.start == old(LedgerOf(budget)) && p.end == LedgerOf(budget)
    ensures primary.cleanupFailures == SortByRank(old(primary.cleanupFailures) + HelperFailures(ends))
  {
    hide AllFinished;
    var failures;
    failures, ends, p, acts, start := CancelAndJoinStartedHelpers(stdout, stderr, stdin, budget, log, clock);
    primary.WithCleanupFailures(failures);
  }

  /** Termination failed, or its output is not wanted: only failures are kept,
      and for an exceeded limit the bytes captured so far. */
  method FinishUncollected(reason: StopReason, termination: Termination, stdout: OutputReader, stderr: OutputReader,
                           stdin: StdinThread?, budget: TotalOutputBudget?, log: Log, clock: Clock,
                           ghost elapsed: Result<Duration, TimeError>)
    returns (error: CommandError, ghost ends: HelperEnds, ghost p: Passage, ghost acts: seq<Act>, ghost start: Duration)
    requires Wired(stdout, stderr, budget)
    requires !Collects(reason, termination)
    modifies log, clock, budget
    ensures fresh(error)
    ensures log.acts == old(log.acts) + acts && old(clock.now) <= start
    ensures AllFinished(stdout, stderr, stdin, budget, ends, p, acts, start)
    ensures p.start == old(LedgerOf(budget)) && p.end == LedgerOf(budget)
    ensures ErrorOf(error, reason, elapsed, termination, ends, p.start, p.end)
  {
    hide AllFinished, HelperFailures, SortByRank;
    error := IntoPrimaryError(reason, None);
    error.WithCleanupFailures(termination.failures);
    if termination.NotTerminated? && reason.OutputLimitExceeded? && budget != null {
      var captured := budget.CapturedStreams();
      error.WithCapturedOutput(captured);
    }
    ends, p, acts, start := FinishWithoutStatus(error, stdout, stderr, stdin, budget, log, clock);
    TwoBatches(termination.failures, HelperFailures(ends));
  }

  /** Finalizing failed as well: its failures become evidence, its captures are kept. */
  method AfterFailedCollection(reason: StopReason, termination: Termination, failure: CommandError,
                               cancellations: seq<CleanupFailure>, budget: TotalOutputBudget?,
                               ghost elapsed: Result<Duration, TimeError>, ghost ends: HelperEnds,
                               ghost shot: Option<Ledger>)
    returns (error: CommandError)
    requires Collects(reason, termination)
    requires CollectedFailures(elapsed, ends) != [] && cancellations == CancellationFailures(ends)
    requires failure.AsCleanup() == CollectedFailures(elapsed, ends) && failure.Reachable() == Some(Captures(ends))
    requires failure.output == if elapsed.Ok?
      then Some(CommandOutput(FinalStatus(reason, termination), Captures(ends), elapsed.value)) else None
    modifies failure, budget
    ensures fresh(error)
    ensures MovesOn(budget, old(LedgerOf(budget)), LedgerOf(budget), true, true)
    ensures ErrorOf(error, reason, elapsed, termination, ends, shot, LedgerOf(budget))
  {
    hide CollectedFailures, CancellationFailures, SortByRank, MovesOn;
    RunReaders(budget, true, true);
    ghost var io := failure.AsCleanup();
    if reason.OutputLimitExceeded? {
      var captured := failure.TakeCapturedOutput();
      if budget != null {
        var merged := budget.CapturedOutputWithJoined(captured);
        captured := Some(merged);
      }
      error := new CommandError.FromReason(Reason.OutputLimitExceeded(reason.limit, reason.observed), None);
      if captured.Some? {
        error.WithCapturedOutput(captured.value);
      }
      error.WithCleanupFailures(termination.failures);
      error.WithCleanupFailures(cancellations);
      var failures := failure.IntoCleanupFailures();
      error.WithCleanupFailures(failures);
      ThreeBatches(termination.failures, cancellations, io);
    } else {
      error := IntoErrorAfterFinalize(reason, failure);
      error.WithCleanupFailures(termination.failures);
      error.WithCleanupFailures(cancellations);
      assert [] + io == io;
      ThreeBatches(io, termination.failures, cancellations);
    }
  }

  method AfterCollection(reason: StopReason, termination: Termination, output: CommandOutput,
                         cancellations: seq<CleanupFailure>, ghost elapsed: Result<Duration, TimeError>,
                         ghost ends: HelperEnds, ghost shot: Option<Ledger>, ghost exit: Option<Ledger>)
    returns (error: CommandError)
    requires Collects(reason, termination) && elapsed.Ok?
    requires CollectedFailures(elapsed, ends) == [] && cancellations == CancellationFailures(ends)
    requires output == CommandOutput(FinalStatus(reason, termination), Captures(ends), elapsed.value)
    ensures fresh(error)
    ensures ErrorOf(error, reason, elapsed, termination, ends, shot, exit)
  {
    hide CollectedFailures, CancellationFailures, SortByRank;
    if reason.OutputLimitExceeded? {
      error := new CommandError.FromReason(Reason.OutputLimitExceeded(reason.limit, reason.observed), None);
      error.WithCapturedOutput(output.captured);
    } else {
      error := IntoPrimaryError(reason, Some(output));
    }
    error.WithCleanupFailures(termination.failures);
    error.WithCleanupFailures(cancellations);
    TwoBatches(termination.failures, cancellations);
    assert Evidence(reason, elapsed, termination, ends) == termination.failures + cancellations;
  }

  /** The helpers' output is wanted: it is collected and goes into the error. */
  method FinishCollected(reason: StopReason, termination: Termination, stdout: OutputReader, stderr: OutputReader,
                         stdin: StdinThread?, budget: TotalOutputBudget?, elapsed: Result<Duration, TimeError>,
                         log: Log, clock: Clock)
    returns (error: CommandError, ghost ends: HelperEnds, ghost p: Passage, ghost acts: seq<Act>, ghost start: Duration)
    requires Wired(stdout, stderr, budget)
    requires Collects(reason, termination)
    modifies log, clock, budget
    ensures fresh(error)
    ensures log.acts == old(log.acts) + acts && old(clock.now) <= start
    ensures AllFinished(stdout, stderr, stdin, budget, ends, p, acts, start)
    ensures p.start == old(LedgerOf(budget)) && MovesOn(budget, p.end, LedgerOf(budget), true, true)
    ensures ErrorOf(error, reason, elapsed, termination, ends, p.start, LedgerOf(budget))
  {
    hide AllFinished, ErrorOf, MovesOn, CollectionFailures, CancellationFailures, ReaderResult, WriterResult, CaptureOf;
    var status := FinalStatus(reason, termination);
    var finished, cancellations;
    finished, cancellations, ends, p, acts, start :=
      CancelAndCollect(status, elapsed, stdout, stderr, stdin, budget, log, clock);
    match finished {
      case Ok(output) =>
        error := AfterCollection(reason, termination, output, cancellations, elapsed, ends, p.start, p.end);
        StaysPut(budget, p.end);
      case Err(failure) =>
        error := AfterFailedCollection(reason, termination, failure, cancellations, budget, elapsed, ends, p.start);
    }
  }

  /** What a stop did to child, helpers and budget: one termination and one helper
      shutdown, while the readers that were still alive went on. */
  ghost predicate StopRecord(reason: StopReason, treeManaged: bool, stdout: OutputReader, stderr: OutputReader,
                             stdin: StdinThread?, budget: TotalOutputBudget?, now: Duration,
                             before: Option<Ledger>, exit: Option<Ledger>, stop: Stopping)
  {
    && Explains(treeManaged, ObservedStatus(reason), stop.calls, stop.termination)
    && now <= stop.start
    && MovesOn(budget, before, stop.passage.start, true, true)
    && AllFinished(stdout, stderr, stdin, budget, stop.ends, stop.passage, stop.acts, stop.start)
    && MovesOn(budget, stop.passage.end, exit, true, true)
  }

  /** What follows the termination: the helpers' output is collected or given up. */
  method FinishStop(reason: StopReason, termination: Termination, stdout: OutputReader, stderr: OutputReader,
                    stdin: StdinThread?, budget: TotalOutputBudget?, elapsed: Result<Duration, TimeError>,
                    log: Log, clock: Clock)
    returns (error: CommandError, ghost ends: HelperEnds, ghost p: Passage, ghost acts: seq<Act>, ghost start: Duration)
    requires Wired(stdout, stderr, budget)
    modifies log, clock, budget
    ensures fresh(error)
    ensures log.acts == old(log.acts) + acts && old(clock.now) <= start
    ensures AllFinished(stdout, stderr, stdin, budget, ends, p, acts, start)
    ensures p.start == old(LedgerOf(budget)) && MovesOn(budget, p.end, LedgerOf(budget), true, true)
    ensures ErrorOf(error, reason, elapsed, termination, ends, p.start, LedgerOf(budget))
  {
    hide AllFinished, ErrorOf, MovesOn, RetainsTerminationOutput;
    if termination.NotTerminated? || !RetainsTerminationOutput(reason) {
      error, ends, p, acts, start :=
        FinishUncollected(reason, termination, stdout, stderr, stdin, budget, log, clock, elapsed);
      StaysPut(budget, LedgerOf(budget));
    } else {
      error, ends, p, acts, start :=
        FinishCollected(reason, termination, stdout, stderr, stdin, budget, elapsed, log, clock);
    }
  }

  /** Every stop ends in an error with the reason that caused it and all evidence; the
      child is dealt with before any helper is touched. */
  method StopAndFinalize(reason: StopReason, child: ManagedChild, stdout: OutputReader, stderr: OutputReader,
                         stdin: StdinThread?, budget: TotalOutputBudget?, elapsed: Result<Duration, TimeError>,
                         log: Log, clock: Clock)
    returns (error: CommandError, ghost stop: Stopping)
    requires Wired(stdout, stderr, budget)
    modifies child, log, clock, budget
    ensures fresh(error)
    ensures stop.calls != [] ==> child.last <= stop.start
    ensures child.calls == old(child.calls) + stop.calls && log.acts == old(log.acts) + stop.acts
    ensures StopRecord(reason, child.treeManaged, stdout, stderr, stdin, budget, old(clock.now),
              old(LedgerOf(budget)), LedgerOf(budget), stop)
    ensures ErrorOf(error, reason, elapsed, stop.termination, stop.ends, stop.passage.start, LedgerOf(budget))
  {
    hide Explains, AllFinished, ErrorOf, MovesOn, RetainsTerminationOutput, ObservedStatus;
    var outcome;
    ghost var calls, ends, p, acts, start;
    outcome, calls := Terminate(child, clock, ObservedStatus(reason));
    RunReaders(budget, true, true);
    error, ends, p, acts, start := FinishStop(reason, outcome, stdout, stderr, stdin, budget, elapsed, log, clock);
    stop := Stopping(calls, outcome, ends, p, acts, start);
  }

  // ---------------------------------------------------------------------
  // What a stopped run guarantees

  /** Everything that went wrong: while terminating, in the clock when it was read,
      in the helpers, and in cancelling them. */
  function FailureBag(reason: StopReason, elapsed: Result<Duration, TimeError>, termination: Termination,
                      ends: HelperEnds): multiset<CleanupFailure>
  {
    multiset(termination.failures)
    + multiset(if Collects(reason, termination) then ClockFailures(elapsed) else [])
    + multiset(HelperFailures(ends))
  }

  /** No failure is lost and none is reported twice, whichever way the run stopped,
      and the report is in canonical resource order. */
  lemma StopKeepsEveryFailure(error: CommandError, reason: StopReason, elapsed: Result<Duration, TimeError>,
                              termination: Termination, ends: HelperEnds, before: Option<Ledger>, after: Option<Ledger>)
    requires ErrorOf(error, reason, elapsed, termination, ends, before, after)
    ensures multiset(error.cleanupFailures) == FailureBag(reason, elapsed, termination, ends)
    ensures RankSorted(error.cleanupFailures)
  {
    var evidence := Evidence(reason, elapsed, termination, ends);
    SortIsPermutation(evidence);
    SortIsStable(evidence);
    hide SortByRank, RankSorted, StreamFailures, StdinFailures, ClockFailures, ReaderCancellation, WriterCancellation;
    hide ReaderResult, WriterResult, Collects, FinalCapture;
  }

  /** A helper's own failures: of its pipe and tee, or of writing stdin. */
  function OwnFailures(h: Helper, ends: HelperEnds): seq<CleanupFailure> {
    match h
    case StdoutReader => StreamFailures(Stdout, ReaderResult(ends.out.end))
    case StderrReader => StreamFailures(Stderr, ReaderResult(ends.err.end))
    case StdinWriter => StdinFailures(WriterResult(ends.inp.end))
  }

  /** The failure to cancel a helper, which comes after its own failures. */
  function LateFailures(h: Helper, ends: HelperEnds): seq<CleanupFailure> {
    match h
    case StdoutReader => ReaderCancellation(Stdout, ends.out)
    case StderrReader => ReaderCancellation(Stderr, ends.err)
    case StdinWriter => WriterCancellation(ends.inp)
  }

  function OutcomeOf(ends: HelperEnds, s: Stream): Outcome<HelperEnd> {
    if s.Stdout? then ends.out else ends.err
  }

  function HelperRank(h: Helper): nat {
    match h
    case StdoutReader => 4
    case StderrReader => 5
    case StdinWriter => 6
  }

  /** The one case in which a helper's failures are not reported in the order in
      which they happened: the limit was exceeded, the child terminated, and both
      the helper and its cancellation failed. */
  predicate OutOfOrder(h: Helper, reason: StopReason, termination: Termination, ends: HelperEnds) {
    && reason.OutputLimitExceeded? && Collects(reason, termination)
    && OwnFailures(h, ends) != [] && LateFailures(h, ends) != []
  }

  lemma {:induction false} AllOfRank(xs: seq<CleanupFailure>, r: nat)
    requires forall f :: f in xs ==> Rank(f) == r
    ensures OfRank(xs, r) == xs
  {
    if xs == [] {
    } else {
      AllOfRank(xs[1..], r);
    }
  }

  lemma {:induction false} NoneOfRank(xs: seq<CleanupFailure>, r: nat)
    requires forall f :: f in xs ==> Rank(f) != r
    ensures OfRank(xs, r) == []
  {
    if xs == [] {
    } else {
      NoneOfRank(xs[1..], r);
    }
  }

  /** Termination failures never share a rank with a helper. */
  lemma {:induction false} SeenRanks(trace: seq<Call>)
    ensures forall f :: f in FailuresSeen(trace) ==> Rank(f) <= 2
  {
    if trace == [] {
    } else {
      SeenRanks(trace[..|trace| - 1]);
    }
  }

  lemma TerminationRanks(treeManaged: bool, observed: Option<ExitStatus>, calls: seq<Call>, termination: Termination)
    requires Explains(treeManaged, observed, calls, termination)
    ensures forall f :: f in termination.failures ==> Rank(f) <= 2
  {
    SeenRanks(calls);
  }

  /** The status reported with the output is the one the terminator established,
      and a status observed before is never replaced. */
  lemma FinalStatusIsEstablished(reason: StopReason, treeManaged: bool, calls: seq<Call>, termination: Termination)
    requires Explains(treeManaged, ObservedStatus(reason), calls, termination) && termination.Terminated?
    ensures FinalStatus(reason, termination) == termination.status
    ensures ObservedStatus(reason).Some? ==> FinalStatus(reason, termination) == ObservedStatus(reason).value
    ensures ObservedStatus(reason).None? ==>
      calls != [] && ExitSeen(calls[|calls| - 1]) == Some(FinalStatus(reason, termination))
  {
    hide KillsInOrder, WaitsSafely, FailuresDue, ExitChecks;
  }

  lemma OfRankFour(a: seq<CleanupFailure>, b: seq<CleanupFailure>, c: seq<CleanupFailure>, d: seq<CleanupFailure>,
                   r: nat)
    ensures OfRank(a + b + c + d, r) == OfRank(a, r) + OfRank(b, r) + OfRank(c, r) + OfRank(d, r)
  {
    OfRankConcat(a + b + c, d, r);
    OfRankConcat(a + b, c, r);
    OfRankConcat(a, b, r);
  }

  lemma PartRank(xs: seq<CleanupFailure>, own: nat, r: nat)
    requires forall f :: f in xs ==> Rank(f) == own
    ensures OfRank(xs, r) == if own == r then xs else []
  {
    if own == r {
      AllOfRank(xs, r);
    } else {
      NoneOfRank(xs, r);
    }
  }

  /** Of the three helpers' parts, the rank of `h` selects that of `h`. */
  function Chosen<T>(h: Helper, a: T, b: T, c: T): T {
    match h
    case StdoutReader => a
    case StderrReader => b
    case StdinWriter => c
  }

  lemma FourParts(h: Helper, a: seq<CleanupFailure>, b: seq<CleanupFailure>, c: seq<CleanupFailure>,
                  d: seq<CleanupFailure>)
    requires forall f :: f in a ==> Rank(f) == 3
    requires forall f :: f in b ==> Rank(f) == 4
    requires forall f :: f in c ==> Rank(f) == 5
    requires forall f :: f in d ==> Rank(f) == 6
    ensures OfRank(a + b + c + d, HelperRank(h)) == Chosen(h, b, c, d)
  {
    var r := HelperRank(h);
    PartRank(a, 3, r);
    PartRank(b, 4, r);
    PartRank(c, 5, r);
    PartRank(d, 6, r);
    hide OfRank, Rank;
    OfRankFour(a, b, c, d, r);
    match h {
      case StdoutReader => assert [] + b + [] + [] == b;
      case StderrReader => assert [] + [] + c + [] == c;
      case StdinWriter => assert [] + [] + [] + d == d;
    }
  }

  lemma CollectedOfRank(h: Helper, elapsed: Result<Duration, TimeError>, ends: HelperEnds)
    ensures OfRank(CollectedFailures(elapsed, ends), HelperRank(h)) == OwnFailures(h, ends)
  {
    FourParts(h, ClockFailures(elapsed), OwnFailures(StdoutReader, ends), OwnFailures(StderrReader, ends),
      OwnFailures(StdinWriter, ends));
  }

  lemma CancellationsOfRank(h: Helper, ends: HelperEnds)
    ensures OfRank(CancellationFailures(ends), HelperRank(h)) == LateFailures(h, ends)
  {
    var a, b, c := ReaderCancellation(Stdout, ends.out), ReaderCancellation(Stderr, ends.err),
      WriterCancellation(ends.inp);
    assert [] + a + b + c == CancellationFailures(ends);
    FourParts(h, [], a, b, c);
  }

  lemma HelperRanks(ends: HelperEnds)
    ensures forall f :: f in ReaderFailures(Stdout, ends.out) ==> Rank(f) == 4
    ensures forall f :: f in ReaderFailures(Stderr, ends.err) ==> Rank(f) == 5
    ensures forall f :: f in WriterFailures(ends.inp) ==> Rank(f) == 6
  {
    StreamFailuresRank(Stdout, ReaderResult(ends.out.end));
    StreamFailuresRank(Stderr, ReaderResult(ends.err.end));
    hide StreamFailures, ReaderResult;
  }

  lemma HelpersOfRank(h: Helper, ends: HelperEnds)
    ensures OfRank(HelperFailures(ends), HelperRank(h)) == OwnFailures(h, ends) + LateFailures(h, ends)
  {
    var a, b, c := ReaderFailures(Stdout, ends.out), ReaderFailures(Stderr, ends.err), WriterFailures(ends.inp);
    HelperParts(h, ends);
    hide StreamFailures, ReaderCancellation, OfRank, Rank, ReaderFailures, WriterFailures, OwnFailures, LateFailures;
    HelperRanks(ends);
    FourParts(h, [], a, b, c);
    assert [] + a + b + c == HelperFailures(ends);
  }

  lemma HelperParts(h: Helper, ends: HelperEnds)
    ensures Chosen(h, ReaderFailures(Stdout, ends.out), ReaderFailures(Stderr, ends.err), WriterFailures(ends.inp))
            == OwnFailures(h, ends) + LateFailures(h, ends)
  {
  }

  /** The order in which a helper's failures are attached. */
  lemma EvidenceOfRank(h: Helper, reason: StopReason, elapsed: Result<Duration, TimeError>, termination: Termination,
                       ends: HelperEnds)
    requires forall f :: f in termination.failures ==> Rank(f) <= 2
    ensures var own, late := OwnFailures(h, ends), LateFailures(h, ends);
      OfRank(Evidence(reason, elapsed, termination, ends), HelperRank(h))
      == if reason.OutputLimitExceeded? && Collects(reason, termination) then late + own else own + late
  {
    var r := HelperRank(h);
    var stopped := termination.failures;
    var io, late := CollectedFailures(elapsed, ends), CancellationFailures(ends);
    NoneOfRank(stopped, r);
    CollectedOfRank(h, elapsed, ends);
    CancellationsOfRank(h, ends);
    HelpersOfRank(h, ends);
    hide OfRank, Rank, CollectedFailures, CancellationFailures, HelperFailures, OwnFailures, LateFailures, Collects;
    if !Collects(reason, termination) {
      AfterNone(stopped, HelperFailures(ends), r);
    } else if reason.OutputLimitExceeded? {
      OfRankConcat(stopped + late, io, r);
      AfterNone(stopped, late, r);
    } else {
      OfRankConcat(io + stopped, late, r);
      BeforeNone(io, stopped, r);
    }
  }

  lemma AfterNone(none: seq<CleanupFailure>, rest: seq<CleanupFailure>, r: nat)
    requires OfRank(none, r) == []
    ensures OfRank(none + rest, r) == OfRank(rest, r)
  {
    OfRankConcat(none, rest, r);
  }

  lemma BeforeNone(rest: seq<CleanupFailure>, none: seq<CleanupFailure>, r: nat)
    requires OfRank(none, r) == []
    ensures OfRank(rest + none, r) == OfRank(rest, r)
  {
    OfRankConcat(rest, none, r);
  }

  lemma OwnIsNotLate(h: Helper, ends: HelperEnds)
    ensures var own, late := OwnFailures(h, ends), LateFailures(h, ends);
      own != [] && late != [] ==> own + late != late + own
  {
    var own, late := OwnFailures(h, ends), LateFailures(h, ends);
    if own != [] && late != [] {
      assert (own + late)[0] == own[0] && (late + own)[0] == late[0];
    }
  }

  /** The failures of every helper are reported in causal order, its own before the
      failure to cancel it, exactly outside the `OutOfOrder` case; in that case the
      order is reversed. */
  lemma CausalOrderExactly(h: Helper, reason: StopReason, elapsed: Result<Duration, TimeError>, stop: Stopping,
                           treeManaged: bool)
    requires Explains(treeManaged, ObservedStatus(reason), stop.calls, stop.termination)
    ensures var report := SortByRank(Evidence(reason, elapsed, stop.termination, stop.ends));
      var own, late := OwnFailures(h, stop.ends), LateFailures(h, stop.ends);
      && (OfRank(report, HelperRank(h)) == own + late <==> !OutOfOrder(h, reason, stop.termination, stop.ends))
      && (OutOfOrder(h, reason, stop.termination, stop.ends) ==> OfRank(report, HelperRank(h)) == late + own)
  {
    hide OfRank, SortByRank, RankSorted, Evidence, OwnFailures, LateFailures, Explains, Collects, ObservedStatus;
    hide HelperRank, Rank;
    TerminationRanks(treeManaged, ObservedStatus(reason), stop.calls, stop.termination);
    EvidenceOfRank(h, reason, elapsed, stop.termination, stop.ends);
    SortIsStable(Evidence(reason, elapsed, stop.termination, stop.ends));
    OwnIsNotLate(h, stop.ends);
  }

  // A stop in which the order is reversed

  lemma KilledAndReaped(status: ExitStatus)
    ensures Explains(true, None, [KillTree(None), BlockingWait(Ok(status))], Terminated(status, []))
  {
    var calls := [KillTree(None), BlockingWait(Ok(status))];
    SeenTwo(calls[0], calls[1]);
    SeenOne(calls[0]);
    assert FailuresSeen(calls) == [] && ExitChecks(calls) == 0;
    hide FailuresSeen, ExitChecks;
  }

  /** A request that fails, followed by a probe that sees the helper stop. */
  lemma SeenThenJoined(h: Helper, refused: IoError)
    requires !refused.kind.NoPendingIo?
    ensures Stretch([Probe(h, true), Join(h)], true, h, Some(refused), false, Some(refused), Deadline(0))
    ensures Timeline([Probe(h, true), Join(h)], 0, 0)
  {
    var seen := [Probe(h, true)];
    assert seen[0] in seen;
    EndOfWait(seen, h, Deadline(0), true, Join(h), 0, 0);
    assert seen + [Join(h)] == [Probe(h, true), Join(h)];
    hide FinishedOnce, Timeline;
  }

  /** Only stderr's request succeeds, but every helper stops at once. */
  function RefusedRequest(h: Helper, refused: IoError): seq<Act> {
    [Cancel(h, 0, if h.StderrReader? then None else Some(refused))]
  }

  function RefusedEnd(h: Helper): seq<Act> {
    if h.StderrReader? then [Join(h)] else [Probe(h, true), Join(h)]
  }

  function RefusedActs(refused: IoError): seq<Act> {
    (RefusedRequest(StdoutReader, refused) + RefusedRequest(StderrReader, refused)
      + RefusedRequest(StdinWriter, refused))
    + (RefusedEnd(StdoutReader) + RefusedEnd(StderrReader) + RefusedEnd(StdinWriter))
  }

  lemma RefusedHelper(h: Helper, refused: IoError)
    requires !refused.kind.NoPendingIo?
    ensures var request := if h.StderrReader? then None else Some(refused);
      && IsRequest(RefusedRequest(h, refused), true, h, request)
      && Stretch(RefusedEnd(h), true, h, request, false, request, Deadline(0))
    ensures Timeline(RefusedRequest(h, refused), 0, 0) && Timeline(RefusedEnd(h), 0, 0)
  {
    if h.StderrReader? {
      EndWithoutWait(h, Deadline(0), 0);
    } else {
      SeenThenJoined(h, refused);
    }
    hide FinishedOnce;
  }

  lemma RefusedRecords(refused: IoError, ends: HelperEnds)
    requires !refused.kind.NoPendingIo?
    requires WasJoined(ends.out) && WasJoined(ends.err) && ends.inp.end.Some?
    requires ends.out.cancellation == Some(refused) && ends.err.cancellation == None
    requires ends.inp.cancellation == Some(refused)
    ensures var acts := RefusedActs(refused);
      && Shutdown(acts, 0)
      && HelperRecord(acts, StdoutReader, true, WasDetached(ends.out), Some(refused), Deadline(0))
      && HelperRecord(acts, StderrReader, true, WasDetached(ends.err), None, Deadline(0))
      && HelperRecord(acts, StdinWriter, true, ends.inp.end.None?, Some(refused), Deadline(0))
  {
    hide Stretch, IsRequest, Timeline, HelperRecord, Shutdown, RefusedRequest, RefusedEnd;
    var r1, t1 := RefusedRequest(StdoutReader, refused), RefusedEnd(StdoutReader);
    var r2, t2 := RefusedRequest(StderrReader, refused), RefusedEnd(StderrReader);
    var r3, t3 := RefusedRequest(StdinWriter, refused), RefusedEnd(StdinWriter);
    RefusedHelper(StdoutReader, refused);
    RefusedHelper(StderrReader, refused);
    RefusedHelper(StdinWriter, refused);
    TimelineConcat(r1, r2, 0, 0, 0);
    TimelineConcat(r1 + r2, r3, 0, 0, 0);
    TimelineConcat(t1, t2, 0, 0, 0);
    TimelineConcat(t1 + t2, t3, 0, 0, 0);
    WholeRecord(r1, r2, r3, t1, t2, t3, true, true, true, Some(refused), None, Some(refused), ends, 0, 0, 0);
  }

  /** Both readers are joined, the first after its tee failed; writing stdin failed. */
  function RefusedEnds(b: Ledger, stdout: OutputReader, stderr: OutputReader, stdin: StdinThread,
                       refused: IoError): HelperEnds
  {
    HelperEnds(Outcome(Some(EndCapture(Some(b.stdout), stdout.worker, false)), Some(refused)),
               Outcome(Some(EndCapture(Some(b.stderr), stderr.worker, false)), None),
               Outcome(Some(AcceptBrokenPipe(stdin.worker)), Some(refused)))
  }

  /** The ledgers of a shutdown in which both readers stand still and are joined. */
  function JoinedPassage(b: Ledger, ends: HelperEnds): Passage {
    var later := AfterEnd(b, Stdout, ends.out.end);
    Passage(Some(b), Some(b), Some(later), Some(AfterEnd(later, Stderr, ends.err.end)))
  }

  lemma JoinedPasses(budget: TotalOutputBudget, b: Ledger, ends: HelperEnds)
    requires WasJoined(ends.out) && WasJoined(ends.err)
    ensures Passes(budget, JoinedPassage(b, ends), ends)
  {
    hide Balanced, AfterEnd;
  }

  lemma RefusedFinish(budget: TotalOutputBudget, b: Ledger, stdout: OutputReader, stderr: OutputReader,
                      stdin: StdinThread, refused: IoError)
    requires !refused.kind.NoPendingIo? && !b.stdout.transferred && !b.stderr.transferred
    ensures var ends := RefusedEnds(b, stdout, stderr, stdin, refused);
      AllFinished(stdout, stderr, stdin, budget, ends, JoinedPassage(b, ends), RefusedActs(refused), 0)
  {
    var ends := RefusedEnds(b, stdout, stderr, stdin, refused);
    RefusedRecords(refused, ends);
    JoinedPasses(budget, b, ends);
    hide Passes, Shutdown, HelperRecord, RefusedActs;
  }

  lemma FailuresOfRefused(b: Ledger, stdout: OutputReader, stderr: OutputReader, stdin: StdinThread, refused: IoError,
                          teeError: IoError, path: Path, output: CapturedOutput, inputError: IoError)
    requires stdout.worker == Err(WriteError(path, teeError, output)) && stderr.worker.Ok?
    requires stdin.worker == Err(inputError) && !inputError.kind.BrokenPipe?
    ensures var ends := RefusedEnds(b, stdout, stderr, stdin, refused);
      && OwnFailures(StdoutReader, ends) == [StdoutWrite(path, teeError)] && OwnFailures(StderrReader, ends) == []
      && OwnFailures(StdinWriter, ends) == [Stdin(inputError)]
      && LateFailures(StdoutReader, ends) == [StdoutCancellation(refused)] && LateFailures(StderrReader, ends) == []
      && LateFailures(StdinWriter, ends) == [StdinCancellation(refused)]
  {
  }

  lemma ReversedOrder(ends: HelperEnds, refused: IoError, teeError: IoError, path: Path, inputError: IoError,
                      reason: StopReason, status: ExitStatus, elapsed: Duration)
    requires reason.OutputLimitExceeded?
    requires OwnFailures(StdoutReader, ends) == [StdoutWrite(path, teeError)] && OwnFailures(StderrReader, ends) == []
    requires OwnFailures(StdinWriter, ends) == [Stdin(inputError)]
    requires LateFailures(StdoutReader, ends) == [StdoutCancellation(refused)] && LateFailures(StderrReader, ends) == []
    requires LateFailures(StdinWriter, ends) == [StdinCancellation(refused)]
    ensures SortByRank(Evidence(reason, Ok(elapsed), Terminated(status, []), ends))
            == [StdoutCancellation(refused), StdoutWrite(path, teeError), StdinCancellation(refused), Stdin(inputError)]
  {
    var arrived := [StdoutCancellation(refused), StdinCancellation(refused), StdoutWrite(path, teeError),
      Stdin(inputError)];
    assert Evidence(reason, Ok(elapsed), Terminated(status, []), ends) == arrived by {
      assert CancellationFailures(ends) == [StdoutCancellation(refused), StdinCancellation(refused)];
      assert CollectedFailures(Ok(elapsed), ends) == [StdoutWrite(path, teeError), Stdin(inputError)];
    }
    hide Evidence, OwnFailures, LateFailures;
    SortedFour(arrived);
  }

  /** Sorting four failures of which the second belongs after the third. */
  lemma SortedFour(xs: seq<CleanupFailure>)
    requires |xs| == 4 && Rank(xs[0]) == Rank(xs[2]) < Rank(xs[1]) == Rank(xs[3])
    ensures SortByRank(xs) == [xs[0], xs[2], xs[1], xs[3]]
  {
    hide Rank;
    SortedIsFixed([xs[3]]);
    var c := InsertByRank(xs[2], [xs[3]]);
    assert xs[1..][1..] == xs[2..] && xs[2..][1..] == xs[3..] == [xs[3]];
    assert SortByRank(xs[2..]) == c == [xs[2], xs[3]];
    assert [xs[2], xs[3]][1..] == [xs[3]];
    assert SortByRank(xs[1..]) == InsertByRank(xs[1], c) == [xs[2], xs[1], xs[3]];
  }

  /** The `OutOfOrder` case occurs, for readers and writer alike: a run whose budget
      was halted is stopped for it; stdout's tee failed and writing stdin failed, and
      the requests to cancel both helpers are refused although both then stop. */
  lemma CausalOrderCanFail(budget: TotalOutputBudget, before: Ledger, stdout: OutputReader, stderr: OutputReader,
                           stdin: StdinThread, refused: IoError, teeError: IoError, path: Path, output: CapturedOutput,
                           inputError: IoError, status: ExitStatus, elapsed: Duration)
    returns (reason: StopReason, exit: Ledger, stop: Stopping)
    requires Balanced(budget.limits, before) && before.halted
    requires !before.stdout.transferred && !before.stderr.transferred
    requires Wired(stdout, stderr, budget)
    requires stdout.worker == Err(WriteError(path, teeError, output)) && stderr.worker.Ok?
    requires stdin.worker == Err(inputError) && !inputError.kind.BrokenPipe? && !refused.kind.NoPendingIo?
    ensures reason.OutputLimitExceeded?
    ensures Exceeded(budget.limits, before) == Some((reason.limit, reason.observed))
    ensures StopRecord(reason, true, stdout, stderr, stdin, budget, 0, Some(before), Some(exit), stop)
    ensures OutOfOrder(StdoutReader, reason, stop.termination, stop.ends)
    ensures OutOfOrder(StdinWriter, reason, stop.termination, stop.ends)
    ensures SortByRank(Evidence(reason, Ok(elapsed), stop.termination, stop.ends))
            == [StdoutCancellation(refused), StdoutWrite(path, teeError), StdinCancellation(refused), Stdin(inputError)]
  {
    hide Explains, AllFinished, SortByRank, Evidence, OwnFailures, LateFailures, Balanced, RefusedActs;
    reason := StopReason.OutputLimitExceeded(budget.limits.limit, before.used, None);
    var ends := RefusedEnds(before, stdout, stderr, stdin, refused);
    var p := JoinedPassage(before, ends);
    exit := p.end.value;
    stop :=
      Stopping([KillTree(None), BlockingWait(Ok(status))], Terminated(status, []), ends, p, RefusedActs(refused), 0);
    KilledAndReaped(status);
    RefusedFinish(budget, before, stdout, stderr, stdin, refused);
    StaysPut(budget, Some(before));
    StaysPut(budget, Some(exit));
    FailuresOfRefused(before, stdout, stderr, stdin, refused, teeError, path, output, inputError);
    hide RefusedEnds, JoinedPassage, MovesOn;
    ReversedOrder(ends, refused, teeError, path, inputError, reason, status, elapsed);
    assert before.exceeded by {
      BalancedIsExceeded(budget.limits, before);
    }
  }

  lemma BalancedIsExceeded(l: Limits, b: Ledger)
    requires Balanced(l, b)
    ensures b.exceeded == b.halted
  {
  }

  /** `pair` hands over what the budget consumed: for each stream exactly the
      retained prefix and the overflow flag, and no completeness the stream did not have. */
  ghost predicate HandsOver(l: Limits, b: Ledger, pair: CapturedPair) {
    forall s: Stream :: StreamHandsOver(l, b, s, pair.Get(s))
  }

  predicate StreamHandsOver(l: Limits, b: Ledger, s: Stream, output: CapturedOutput) {
    && output.bytes == Retained(b.Get(s).consumed, l.Cap(s))
    && output.truncated == Overflows(b.Get(s).consumed, l.Cap(s))
    && (output.complete ==> b.Get(s).complete)
  }

  /** The capture of one stream, given its ledger channel before the stop and at its
      end: a joined reader hands over everything it ever took; a detached one at
      least what it had taken before the stop and a prefix of all it ever takes,
      never called complete. */
  predicate StreamOutcome(l: Limits, before: Ledger, exit: Ledger, s: Stream, output: CapturedOutput, detached: bool) {
    var had, has, cap := before.Get(s).consumed, exit.Get(s).consumed, l.Cap(s);
    if detached then
      && Retained(had, cap) <= output.bytes <= Retained(has, cap)
      && (Overflows(had, cap) ==> output.truncated) && (output.truncated ==> Overflows(has, cap))
      && !output.complete && !exit.Get(s).transferred
    else output == Capture(has, cap, exit.Get(s).complete) && exit.Get(s).transferred
  }

  lemma PrefixesRetained(small: seq<Byte>, large: seq<Byte>, cap: Option<nat>)
    requires small <= large
    ensures Retained(small, cap) <= Retained(large, cap)
    ensures Overflows(small, cap) ==> Overflows(large, cap)
  {
  }

  /** What happens to the channel of `s` from the stop to the moment its reader ends
      (`seen`) and from then on. */
  ghost predicate ChannelPasses(l: Limits, before: Ledger, seen: Ledger, exit: Ledger, s: Stream, detached: bool) {
    var c, c', c'' := before.Get(s), seen.Get(s), exit.Get(s);
    && ChannelKept(c', l.Cap(s)) && !c'.transferred
    && c.consumed <= c'.consumed <= c''.consumed
    && (before.halted ==> c'.consumed == c.consumed && c''.consumed == c.consumed)
    && (c.complete ==> c'.complete) && (c'.complete ==> c''.complete)
    && (detached ==> !c''.transferred && ChannelKept(c'', l.Cap(s)))
    && (!detached ==> c'' == c'.(bytes := [], transferred := true))
  }

  lemma OutcomeOfPassage(l: Limits, before: Ledger, seen: Ledger, exit: Ledger, s: Stream, worker: CaptureResult,
                         detached: bool)
    requires ChannelPasses(l, before, seen, exit, s, detached)
    ensures StreamOutcome(l, before, exit, s,
              CaptureOf(ReaderResult(Some(EndCapture(Some(seen.Get(s)), worker, detached)))), detached)
  {
    PrefixesRetained(before.Get(s).consumed, seen.Get(s).consumed, l.Cap(s));
    PrefixesRetained(seen.Get(s).consumed, exit.Get(s).consumed, l.Cap(s));
    hide Retained, Overflows;
  }

  /** The ledgers of a whole stop, from the decision to the finished error. */
  ghost predicate Ledgers(l: Limits, before: Ledger, p: Passage, exit: Ledger, ends: HelperEnds) {
    && p.start.Some? && p.out.Some? && p.err.Some?
    && Advances(l, before, p.start.value, true, true)
    && Advances(l, p.start.value, p.out.value, true, true)
    && Advances(l, AfterEnd(p.out.value, Stdout, ends.out.end), p.err.value, !WasJoined(ends.out), true)
    && Advances(l, AfterEnd(p.err.value, Stderr, ends.err.end), exit, true, true)
  }

  lemma EndKeepsBalance(l: Limits, b: Ledger, s: Stream, end: Option<HelperEnd>)
    requires Balanced(l, b)
    ensures Balanced(l, AfterEnd(b, s, end)) && AfterEnd(b, s, end).halted == b.halted
    ensures AfterEnd(b, s, end).Get(s.Other()) == b.Get(s.Other())
  {
  }

  lemma ChannelsPass(l: Limits, before: Ledger, p: Passage, exit: Ledger, ends: HelperEnds)
    requires Balanced(l, before) && !before.stdout.transferred && !before.stderr.transferred
    requires Ledgers(l, before, p, exit, ends)
    ensures Balanced(l, exit)
    ensures forall s: Stream :: p.start.value.Get(s).complete ==> exit.Get(s).complete
    ensures ends.out.end.Some? ==> ChannelPasses(l, before, p.out.value, exit, Stdout, WasDetached(ends.out))
    ensures ends.err.end.Some? ==> ChannelPasses(l, before, p.err.value, exit, Stderr, WasDetached(ends.err))
  {
    AdvancesChain(l, before, p.start.value, p.out.value, true, true);
    EndKeepsBalance(l, p.out.value, Stdout, ends.out.end);
    EndKeepsBalance(l, p.err.value, Stderr, ends.err.end);
    forall s: Stream ensures p.start.value.Get(s).complete ==> exit.Get(s).complete {
      assert AfterEnd(p.out.value, Stdout, ends.out.end).Get(s).complete == p.out.value.Get(s).complete;
      assert AfterEnd(p.err.value, Stderr, ends.err.end).Get(s).complete == p.err.value.Get(s).complete;
    }
    assert forall b: Ledger ::
      Balanced(l, b) ==> ChannelKept(b.stdout, l.maxStdout) && ChannelKept(b.stderr, l.maxStderr);
    hide Balanced, ChannelKept;
  }

  /** With a budget whose bytes nobody took yet, and readers that go on until they
      are joined: an exceeded limit hands over, on every path, exactly what was ever
      consumed; any other collected stop hands over joined streams in full and
      detached ones as an honest prefix. */
  lemma StopHandsOver(before: Ledger, exit: Ledger, treeManaged: bool, stdout: OutputReader, stderr: OutputReader,
                      stdin: StdinThread?, budget: TotalOutputBudget, error: CommandError, reason: StopReason,
                      elapsed: Result<Duration, TimeError>, now: Duration, stop: Stopping)
    requires Balanced(budget.limits, before) && !before.stdout.transferred && !before.stderr.transferred
    requires StopRecord(reason, treeManaged, stdout, stderr, stdin, budget, now, Some(before), Some(exit), stop)
    requires ErrorOf(error, reason, elapsed, stop.termination, stop.ends, stop.passage.start, Some(exit))
    ensures error.Reachable().Some? <==> reason.OutputLimitExceeded? || Collects(reason, stop.termination)
    ensures before.halted ==>
      && exit.stdout.consumed == before.stdout.consumed && exit.stderr.consumed == before.stderr.consumed
      && (reason.OutputLimitExceeded? ==> HandsOver(budget.limits, exit, error.Reachable().value))
    ensures Collects(reason, stop.termination) && !reason.OutputLimitExceeded? ==>
      forall s: Stream :: StreamOutcome(budget.limits, before, exit, s, error.Reachable().value.Get(s),
        WasDetached(OutcomeOf(stop.ends, s)))
  {
    hide SortByRank, Evidence, CollectedFailures, Shutdown, HelperRecord, EndCapture, Balanced, Advances, Explains;
    hide FinalCapture, Captures;
    var l, p, ends := budget.limits, stop.passage, stop.ends;
    assert Ledgers(l, before, p, exit, ends);
    ChannelsPass(l, before, p, exit, ends);
    OutcomeOfPassage(l, before, p.out.value, exit, Stdout, stdout.worker, WasDetached(ends.out));
    OutcomeOfPassage(l, before, p.err.value, exit, Stderr, stderr.worker, WasDetached(ends.err));
    CapturesHaveOutcomes(l, before, exit, stdout, stderr, p, ends);
    FinalCaptureHandsOver(l, before, p.start.value, exit, reason, elapsed, stop.termination, ends);
  }

  /** Normal completion hands over every stream in full, with the budget's own flags. */
  lemma CompletionHandsOver(before: Ledger, exit: Ledger, stdout: OutputReader, stderr: OutputReader,
                            stdin: StdinThread?,
                            budget: TotalOutputBudget, ends: HelperEnds, p: Passage)
    requires Balanced(budget.limits, before) && !before.stdout.transferred && !before.stderr.transferred
    requires AllJoined(stdout, stderr, stdin, budget, ends, p) && p.start == Some(before) && p.end == Some(exit)
    ensures forall s: Stream ::
      Captures(ends).Get(s) == Capture(exit.Get(s).consumed, budget.limits.Cap(s), exit.Get(s).complete)
  {
    hide EndCapture, Balanced, Advances, Captures;
    var l := budget.limits;
    StaysPut(budget, Some(before));
    StaysPut(budget, Some(exit));
    assert Ledgers(l, before, p, exit, ends);
    ChannelsPass(l, before, p, exit, ends);
    OutcomeOfPassage(l, before, p.out.value, exit, Stdout, stdout.worker, false);
    OutcomeOfPassage(l, before, p.err.value, exit, Stderr, stderr.worker, false);
    CapturesHaveOutcomes(l, before, exit, stdout, stderr, p, ends);
    hide ChannelPasses, Ledgers, CaptureOf;
    forall s: Stream
      ensures Captures(ends).Get(s) == Capture(exit.Get(s).consumed, l.Cap(s), exit.Get(s).complete)
    {
      assert !WasDetached(OutcomeOf(ends, s));
    }
  }

  lemma CapturesHaveOutcomes(l: Limits, before: Ledger, exit: Ledger, stdout: OutputReader, stderr: OutputReader,
                             p: Passage, ends: HelperEnds)
    requires p.out.Some? && p.err.Some?
    requires ReaderEnds(stdout, Books(p.out, Stdout), ends.out) && ReaderEnds(stderr, Books(p.err, Stderr), ends.err)
    requires StreamOutcome(l, before, exit, Stdout,
      CaptureOf(ReaderResult(Some(EndCapture(Some(p.out.value.Get(Stdout)),
      stdout.worker, WasDetached(ends.out))))), WasDetached(ends.out))
    requires StreamOutcome(l, before, exit, Stderr,
      CaptureOf(ReaderResult(Some(EndCapture(Some(p.err.value.Get(Stderr)),
      stderr.worker, WasDetached(ends.err))))), WasDetached(ends.err))
    ensures forall s: Stream ::
      StreamOutcome(l, before, exit, s, Captures(ends).Get(s), WasDetached(OutcomeOf(ends, s)))
  {
    hide EndCapture, StreamOutcome, CaptureOf;
    forall s: Stream
      ensures StreamOutcome(l, before, exit, s, Captures(ends).Get(s), WasDetached(OutcomeOf(ends, s)))
    {
    }
  }

  lemma FinalCaptureHandsOver(l: Limits, before: Ledger, shot: Ledger, exit: Ledger, reason: StopReason,
                              elapsed: Result<Duration, TimeError>, termination: Termination, ends: HelperEnds)
    requires Balanced(l, before) && Balanced(l, exit) && Advances(l, before, shot, true, true)
    requires !before.stdout.transferred && !before.stderr.transferred
    requires forall s: Stream ::
      StreamOutcome(l, before, exit, s, Captures(ends).Get(s), WasDetached(OutcomeOf(ends, s)))
    requires forall s: Stream :: shot.Get(s).complete ==> exit.Get(s).complete
    requires before.halted ==> forall s: Stream :: exit.Get(s).consumed == before.Get(s).consumed
    ensures var final := FinalCapture(reason, elapsed, termination, ends, Some(shot), Some(exit));
      && (final.Some? <==> reason.OutputLimitExceeded? || Collects(reason, termination))
      && (Collects(reason, termination) && !reason.OutputLimitExceeded? ==> final == Some(Captures(ends)))
      && (before.halted && reason.OutputLimitExceeded? ==> HandsOver(l, exit, final.value))
  {
    var final := FinalCapture(reason, elapsed, termination, ends, Some(shot), Some(exit));
    if before.halted && reason.OutputLimitExceeded? {
      forall s: Stream ensures StreamHandsOver(l, exit, s, final.value.Get(s)) {
        SourcesHandOver(l, before, shot, exit, s, ends);
        hide CollectedFailures, Captures, StreamHandsOver, Collects, StreamOutcome;
      }
    }
  }

  /** After a halt, each place the final bytes of a stream may come from holds the same bytes. */
  lemma SourcesHandOver(l: Limits, before: Ledger, shot: Ledger, exit: Ledger, s: Stream, ends: HelperEnds)
    requires Balanced(l, before) && Balanced(l, exit) && Advances(l, before, shot, true, true)
    requires !before.Get(s).transferred && before.halted
    requires StreamOutcome(l, before, exit, s, Captures(ends).Get(s), WasDetached(OutcomeOf(ends, s)))
    requires shot.Get(s).complete ==> exit.Get(s).complete
    requires exit.Get(s).consumed == before.Get(s).consumed
    ensures StreamHandsOver(l, exit, s, Captures(ends).Get(s))
    ensures StreamHandsOver(l, exit, s, Snapshot(shot, s))
    ensures StreamHandsOver(l, exit, s, WithJoined(exit, s, Some(Captures(ends))))
  {
    hide Captures, Retained, Overflows;
  }

  /** Without retention caps the two captures together are one byte longer than the limit. */
  lemma UncappedCaptureLength(l: Limits, b: Ledger, pair: CapturedPair)
    requires Balanced(l, b) && b.halted && HandsOver(l, b, pair)
    requires l.maxStdout.None? && l.maxStderr.None?
    ensures |pair.stdout.bytes| + |pair.stderr.bytes| == l.limit + 1
  {
    assert pair.Get(Stdout).bytes == b.Get(Stdout).consumed;
    assert pair.Get(Stderr).bytes == b.Get(Stderr).consumed;
  }
}
