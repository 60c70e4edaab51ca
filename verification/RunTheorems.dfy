/** What a caller can rely on in every interleaving of the two readers and the
    runner: statements about `RunMachine.Execute` for all configurations and all
    schedules. */
module RunTheorems {
  import opened Basics
  import opened OutputBudget
  import opened OutputCollector
  import opened OutputReaders
  import opened RunMachine

  /** Bytes a stream's reader has taken from its pipe so far. */
  function ConsumedBy(st: RunState, s: Stream): seq<Byte> {
    st.Get(s).reader.consumed
  }

  // ---------------------------------------------------------------------
  // Counting

  /** The shared counter is the number of bytes both readers took, it never
      passes the sentinel, and "exceeded", "halted" and "sentinel taken" are one
      and the same thing. */
  lemma BudgetCountsExactly(c: Config, schedule: seq<Label>)
    ensures var st := Execute(c, schedule);
      && st.ledger.used == |ConsumedBy(st, Stdout)| + |ConsumedBy(st, Stderr)| <= c.limits.limit + 1
      && (st.ledger.exceeded <==> st.ledger.used == c.limits.limit + 1)
      && (st.ledger.halted <==> st.ledger.used == c.limits.limit + 1)
      && st.ledger.used <= U128_MAX
  {
    EveryReachableStateOk(c, schedule);
    hide Execute, PcOk, EndOk, TeeOk, EofOk, ReportOk;
  }

  lemma {:induction false} ScheduleSplits(c: Config, before: seq<Label>, after: seq<Label>)
    requires after != []
    ensures Execute(c, before + after) == Apply(Execute(c, before + after[..|after| - 1]), after[|after| - 1])
  {
    assert (before + after)[..|before + after| - 1] == before + after[..|after| - 1];
  }

  /** Once halted, no reader ever takes another byte, whoever runs and however often. */
  lemma {:induction false} HaltedRunTakesNothing(c: Config, before: seq<Label>, after: seq<Label>)
    requires Execute(c, before).ledger.halted
    ensures var st, st' := Execute(c, before), Execute(c, before + after);
      && st'.ledger.halted
      && forall s :: ConsumedBy(st', s) == ConsumedBy(st, s) && (st.Get(s).reader.sawEof ==> st'.Get(s).reader.sawEof)
  {
    hide Execute;
    if after == [] {
      assert before + after == before;
    } else {
      HaltedRunTakesNothing(c, before, after[..|after| - 1]);
      ScheduleSplits(c, before, after);
      MoveProgress(Execute(c, before + after[..|after| - 1]), after[|after| - 1]);
      hide Apply;
    }
  }

  /** What one move of any actor does to both readers. */
  ghost predicate Progress(st: RunState, st': RunState) {
    && (st.ledger.halted ==> st'.ledger.halted)
    && forall s :: (st.ledger.halted ==> ConsumedBy(st', s) == ConsumedBy(st, s))
                   && (st.Get(s).reader.sawEof ==> st'.Get(s).reader.sawEof)
  }

  lemma MoveProgress(st: RunState, move: Label)
    ensures Progress(st, Apply(st, move))
  {
    match move {
      case ReaderMoves(s, e) =>
        StepProgress(st.config.OptionsOf(s), st.MachineOf(s), e);
        hide Step;
      case RunnerMoves(choice) => RunnerProgress(st, choice);
    }
  }

  lemma RunnerProgress(st: RunState, choice: Choice)
    ensures Progress(st, StepMonitor(st, choice)) && Progress(st, StepFinish(st, choice))
  {
    FinishingProgress(st, choice);
    hide Snapshot, WithJoined, ReplaceOutput, OutputOf, FinishHelper, Collected, AfterFinishing, PlanFor,
      OverLimitCause;
  }

  lemma FinishingProgress(st: RunState, choice: Choice)
    ensures forall s, next :: Progress(st, FinishHelper(st, s, choice, next))
    ensures forall s :: st.Finished(s) ==> Progress(st, Join(st, s))
  {
    hide Snapshot, ReplaceOutput;
  }

  // ---------------------------------------------------------------------
  // Completeness

  /** A stream is marked complete only if its own pipe reported end of file; and a
      stopped reader that saw end of file is marked unless the budget halted. */
  lemma NoFalseCompleteness(c: Config, schedule: seq<Label>, s: Stream)
    ensures var st := Execute(c, schedule);
      var reader := st.Get(s).reader;
      && (st.ledger.Get(s).complete ==> reader.sawEof)
      && (reader.pc.Finished? ==> (st.ledger.Get(s).complete <==> reader.pc.stop.AtEof?))
      && (reader.pc.Finished? && !st.ledger.halted ==> (st.ledger.Get(s).complete <==> reader.sawEof))
  {
    EveryReachableStateOk(c, schedule);
    hide Execute, PcOk, EndOk, TeeOk, CaptureOk, ReportOk;
  }

  /** The converse of completeness fails only by a race: stdout's read returns end
      of file, stderr then takes the sentinel byte, and stdout's separate question
      "is the budget halted?" answers yes. */
  const RACE_CONFIG := Config(LimitsRecord(0, None, None), None, None)
  const RACE: seq<Label> := [
    ReaderMoves(Stdout, Observe(false)),
    ReaderMoves(Stdout, Ready(Readable(1))),
    ReaderMoves(Stdout, Answered(Ok([]))),
    ReaderMoves(Stderr, Observe(false)),
    ReaderMoves(Stderr, Ready(Readable(1))),
    ReaderMoves(Stderr, Answered(Ok([7]))),
    ReaderMoves(Stdout, Internal),
    ReaderMoves(Stdout, Flush(None)),
    ReaderMoves(Stdout, Internal)
  ]

  lemma PrefixStep(c: Config, schedule: seq<Label>, k: nat)
    requires k < |schedule|
    ensures Execute(c, schedule[..k + 1]) == Apply(Execute(c, schedule[..k]), schedule[k])
    ensures Execute(c, schedule[..0]) == Initial(c)
  {
    assert schedule[..k + 1][..k] == schedule[..k];
    hide Apply, Initial;
  }

  lemma RaceAfterEof()
    ensures var st := Execute(RACE_CONFIG, RACE[..3]);
      && st.stdout.reader.pc == ZeroSeen && st.stdout.reader.sawEof && !st.stdout.cancelled
      && st == Initial(RACE_CONFIG).(stdout := st.stdout)
  {
    PrefixStep(RACE_CONFIG, RACE, 0);
    PrefixStep(RACE_CONFIG, RACE, 1);
    PrefixStep(RACE_CONFIG, RACE, 2);
  }

  lemma RaceBeforeSentinel()
    ensures var st := Execute(RACE_CONFIG, RACE[..5]);
      && st.stdout.reader.pc == ZeroSeen && st.stdout.reader.sawEof && !st.stdout.cancelled
      && st.stderr.reader == StartReader(RACE_CONFIG.OptionsOf(Stderr)).(pc := Reading(1))
      && st.ledger == EMPTY_LEDGER && st.config == RACE_CONFIG && !st.stderr.cancelled
  {
    hide StepMonitor, StepFinish, StepTee, StepMark, StepFlush, StepReport, Report, Snapshot, StepRead;
    RaceAfterEof();
    PrefixStep(RACE_CONFIG, RACE, 3);
    PrefixStep(RACE_CONFIG, RACE, 4);
  }

  lemma RaceAfterHalt()
    ensures var st := Execute(RACE_CONFIG, RACE[..6]);
      st.stdout.reader.pc == ZeroSeen && st.stdout.reader.sawEof && st.ledger.halted && !st.ledger.stdout.complete
      && !st.stdout.cancelled
  {
    hide StepMonitor, StepFinish, StepTee, StepMark, StepFlush, StepReport, Report, Snapshot, StepReady, StepObserve;
    RaceBeforeSentinel();
    PrefixStep(RACE_CONFIG, RACE, 5);
  }

  lemma RaceAfterRefusal()
    ensures var st := Execute(RACE_CONFIG, RACE[..7]);
      st.stdout.reader.pc == Leaving(OutputCollector.Stopped) && st.stdout.reader.sawEof && st.ledger.halted
      && !st.ledger.stdout.complete
  {
    hide StepMonitor, StepFinish, StepTee, StepMark, StepFlush, StepReport, Report, Snapshot;
    hide StepReady, StepObserve, StepRead;
    RaceAfterHalt();
    PrefixStep(RACE_CONFIG, RACE, 6);
  }

  lemma RaceAfterFlush()
    ensures var st := Execute(RACE_CONFIG, RACE[..8]);
      st.stdout.reader.pc == Reporting(OutputCollector.Stopped) && st.stdout.reader.sawEof && st.ledger.halted
      && !st.ledger.stdout.complete
  {
    hide StepMonitor, StepFinish, StepReady, StepRead, StepTee, StepMark, StepObserve, StepReport, Initial;
    RaceAfterRefusal();
    PrefixStep(RACE_CONFIG, RACE, 7);
  }

  lemma EofCanBeLostToAHalt()
    ensures var st := Execute(RACE_CONFIG, RACE);
      st.Finished(Stdout) && st.stdout.reader.sawEof && !st.ledger.stdout.complete && st.ledger.halted
  {
    hide StepMonitor, StepFinish, StepReady, StepRead, StepTee, StepMark, StepObserve, Report, Snapshot, Initial;
    RaceAfterFlush();
    PrefixStep(RACE_CONFIG, RACE, 8);
    assert RACE[..9] == RACE;
  }

  // ---------------------------------------------------------------------
  // Normal completion

  predicate HasJoined(lane: Lane) {
    lane.end.Some? && lane.end.value.Joined?
  }

  /** No overrun is missed: a run that completes normally has stopped and joined
      both readers and took at most `limit` bytes, however late the last reads. */
  lemma NoOverrunMissed(c: Config, schedule: seq<Label>)
    requires Execute(c, schedule).pc.Completed?
    ensures var st := Execute(c, schedule);
      && st.Finished(Stdout) && st.Finished(Stderr) && HasJoined(st.stdout) && HasJoined(st.stderr)
      && |ConsumedBy(st, Stdout)| + |ConsumedBy(st, Stderr)| <= c.limits.limit
      && !st.ledger.exceeded
  {
    EveryReachableStateOk(c, schedule);
    BudgetCountsExactly(c, schedule);
    hide Execute, LaneOk;
  }

  /** The capture of a completed run is exact for each stream, whether or not its
      reader or tee failed: the cap applied to every byte taken, complete exactly
      when the pipe ended, and nothing left behind in the budget.  A stream that
      succeeded has ended, and its tee, if any, holds all of it. */
  lemma CompletedStreamIsExact(c: Config, schedule: seq<Label>, s: Stream)
    requires Execute(c, schedule).pc.Completed?
    ensures var st := Execute(c, schedule);
      var lane := st.Get(s);
      && HasJoined(lane)
      && OutputOf(lane.end.value) == Capture(ConsumedBy(st, s), c.limits.Cap(s), lane.reader.sawEof)
      && st.ledger.Get(s).bytes == []
      && (lane.end.value.result.Ok? ==> lane.reader.sawEof)
      && (lane.end.value.result.Ok? && c.OptionsOf(s).tee.Some? ==> lane.reader.teeContent == ConsumedBy(st, s))
  {
    EveryReachableStateOk(c, schedule);
    CompletedLane(c, Execute(c, schedule), s);
    hide Execute;
  }

  lemma CompletedLane(c: Config, st: RunState, s: Stream)
    requires StateOk(st) && st.config == c && st.pc.Completed?
    ensures var lane := st.Get(s);
      && HasJoined(lane)
      && OutputOf(lane.end.value) == Capture(ConsumedBy(st, s), c.limits.Cap(s), lane.reader.sawEof)
      && st.ledger.Get(s).bytes == []
      && (lane.end.value.result.Ok? ==> lane.reader.sawEof)
      && (lane.end.value.result.Ok? && c.OptionsOf(s).tee.Some? ==> lane.reader.teeContent == ConsumedBy(st, s))
  {
    var reader := st.Get(s).reader;
    ReplacedOutput(reader.pc.result, Capture(ConsumedBy(st, s), c.limits.Cap(s), reader.pc.stop.AtEof?));
    assert reader.sawEof <==> reader.pc.stop.AtEof?;
    hide OutputOf, Retained, Overflows;
  }

  // ---------------------------------------------------------------------
  // Stopping for the budget

  lemma {:induction false} ReportIsFinal(c: Config, before: seq<Label>, after: seq<Label>)
    requires Execute(c, before).pc.Reported?
    ensures Execute(c, before + after).pc == Execute(c, before).pc
  {
    hide Execute;
    if after == [] {
      assert before + after == before;
    } else {
      ReportIsFinal(c, before, after[..|after| - 1]);
      ScheduleSplits(c, before, after);
      hide Step;
    }
  }

  /** Exactly-once hand-over.  On every path that ends in "output limit exceeded"
      (termination failed, finalization failed or finalization succeeded, readers
      joined or detached in any order) the bytes in the error are, for each
      stream, exactly what its cap keeps of everything its reader ever took, also
      after any further activity of detached readers; bytes handed to a joined
      reader are not also left in the budget; and the reported count is the true
      one. */
  lemma ExactlyOnceHandOver(c: Config, before: seq<Label>, after: seq<Label>)
    requires Execute(c, before).pc.Reported? && Execute(c, before).pc.cause.OverLimit?
    ensures var st := Execute(c, before + after);
      && st.pc == Execute(c, before).pc && st.pc.captured.Some?
      && st.pc.cause == OverLimit(c.limits.limit, |ConsumedBy(st, Stdout)| + |ConsumedBy(st, Stderr)|)
      && |ConsumedBy(st, Stdout)| + |ConsumedBy(st, Stderr)| == c.limits.limit + 1
      && forall s ::
        && st.pc.captured.value.Get(s).bytes == Retained(ConsumedBy(st, s), c.limits.Cap(s))
        && st.pc.captured.value.Get(s).truncated == Overflows(ConsumedBy(st, s), c.limits.Cap(s))
        && (st.pc.captured.value.Get(s).complete ==> st.Get(s).reader.sawEof)
        && (HasJoined(st.Get(s)) ==> st.ledger.Get(s).bytes == [])
  {
    ReportIsFinal(c, before, after);
    EveryReachableStateOk(c, before + after);
    BudgetCountsExactly(c, before + after);
    LimitReport(c, Execute(c, before + after));
    hide Execute;
  }

  lemma LimitReport(c: Config, st: RunState)
    requires StateOk(st) && st.config == c && st.pc.Reported? && st.pc.cause.OverLimit?
    ensures st.pc.captured.Some? && st.pc.cause == OverLimit(c.limits.limit, c.limits.limit + 1) && st.ledger.halted
    ensures FaithfulPair(st, st.pc.captured.value)
    ensures st.stdout.end.Some? && st.stderr.end.Some?
    ensures forall s :: HasJoined(st.Get(s)) ==> st.ledger.Get(s).bytes == []
  {
    OkIsBalanced(c.OptionsOf(Stdout), st.MachineOf(Stdout));
    hide Faithful, TeeOk, EofOk, ReportOk;
  }

  /** Without retention caps the two captures together hold every byte taken. */
  lemma UncappedHandOverIsTotal(c: Config, schedule: seq<Label>)
    requires c.limits.maxStdout.None? && c.limits.maxStderr.None?
    requires Execute(c, schedule).pc.Reported? && Execute(c, schedule).pc.cause.OverLimit?
    ensures var captured := Execute(c, schedule).pc.captured;
      captured.Some? && |captured.value.stdout.bytes| + |captured.value.stderr.bytes| == c.limits.limit + 1
  {
    ExactlyOnceHandOver(c, schedule, []);
    assert schedule + [] == schedule;
    hide Execute;
    var st := Execute(c, schedule);
    assert st.pc.captured.value.Get(Stdout).bytes == ConsumedBy(st, Stdout);
    assert st.pc.captured.value.Get(Stderr).bytes == ConsumedBy(st, Stderr);
  }

  /** The stop that follows the race: stdout is joined, stderr's cancellation fails
      and it is detached, and the clock fails as well. */
  const STOP: seq<Label> := [
    RunnerMoves(Proceed), RunnerMoves(Proceed), RunnerMoves(Proceed), RunnerMoves(CancelFailed),
    RunnerMoves(Proceed), RunnerMoves(Unconfirmed), RunnerMoves(ClockOrStdinFailed)
  ]

  /** Such stops do happen: the hand-over theorem is not about impossible runs. */
  lemma LimitIsReported()
    ensures var st := Execute(RACE_CONFIG, RACE + STOP);
      st.pc.Reported? && st.pc.cause.OverLimit? && HasJoined(st.stdout) && st.stderr.end.Some? && !HasJoined(st.stderr)
  {
    EofCanBeLostToAHalt();
    BudgetCountsExactly(RACE_CONFIG, RACE);
    ReadersLeaveRunner(RACE_CONFIG, RACE);
    StopFrom(Execute(RACE_CONFIG, RACE));
    hide Execute, Apply;
    RunSteps(RACE_CONFIG, RACE, STOP);
  }

  lemma {:induction false} ReadersLeaveRunner(c: Config, schedule: seq<Label>)
    requires forall move :: move in schedule ==> move.ReaderMoves?
    ensures Execute(c, schedule).pc == Polling
  {
    if schedule == [] {
    } else {
      ReadersLeaveRunner(c, schedule[..|schedule| - 1]);
      hide Step;
    }
  }

  function ApplyAll(st: RunState, moves: seq<Label>): RunState
    decreases moves
  {
    if moves == [] then st else ApplyAll(Apply(st, moves[0]), moves[1..])
  }

  lemma {:induction false} RunSteps(c: Config, before: seq<Label>, moves: seq<Label>)
    ensures Execute(c, before + moves) == ApplyAll(Execute(c, before), moves)
    decreases |moves|
  {
    hide Execute, Apply;
    if moves == [] {
      assert before + moves == before;
    } else {
      ScheduleSplits(c, before, [moves[0]]);
      assert before + [moves[0]][..0] == before;
      RunSteps(c, before + [moves[0]], moves[1..]);
      assert before + [moves[0]] + moves[1..] == before + moves;
    }
  }

  lemma StopFrom(st: RunState)
    requires st.pc.Polling? && st.ledger.exceeded && st.Finished(Stdout)
    ensures var st' := ApplyAll(st, STOP);
      st'.pc.Reported? && st'.pc.cause.OverLimit? && HasJoined(st'.stdout) && st'.stderr.end.Some?
        && !HasJoined(st'.stderr)
  {
    var s4 := ApplyFour(st, STOP[0], STOP[1], STOP[2], STOP[3]);
    RequestsOfStop(st);
    EndsOfStop(s4);
    hide Apply, ApplyFour;
    SplitMoves(st, STOP);
    assert ApplyAll(s4, STOP[4..]) == Apply(Apply(Apply(s4, STOP[4]), STOP[5]), STOP[6]) by {
      assert STOP[4..][1..] == STOP[5..] && STOP[5..][1..] == STOP[6..] && STOP[6..][1..] == [];
      assert ApplyAll(s4, STOP[4..]) == ApplyAll(Apply(s4, STOP[4]), STOP[5..]);
      assert ApplyAll(Apply(s4, STOP[4]), STOP[5..]) == ApplyAll(Apply(Apply(s4, STOP[4]), STOP[5]), STOP[6..]);
    }
  }

  function ApplyFour(st: RunState, a: Label, b: Label, c: Label, d: Label): RunState {
    Apply(Apply(Apply(Apply(st, a), b), c), d)
  }

  lemma SplitMoves(st: RunState, moves: seq<Label>)
    requires |moves| >= 4
    ensures ApplyAll(st, moves) == ApplyAll(ApplyFour(st, moves[0], moves[1], moves[2], moves[3]), moves[4..])
  {
    hide Apply;
    assert moves[1..][1..] == moves[2..] && moves[2..][1..] == moves[3..] && moves[3..][1..] == moves[4..];
    assert ApplyAll(st, moves) == ApplyAll(Apply(st, moves[0]), moves[1..]);
    var s1 := Apply(st, moves[0]);
    var s2 := Apply(s1, moves[1]);
    var s3 := Apply(s2, moves[2]);
    assert ApplyAll(s1, moves[1..]) == ApplyAll(s2, moves[2..]);
    assert ApplyAll(s2, moves[2..]) == ApplyAll(s3, moves[3..]);
    assert ApplyAll(s3, moves[3..]) == ApplyAll(Apply(s3, moves[3]), moves[4..]);
  }

  lemma RequestsOfStop(st: RunState)
    requires st.pc.Polling? && st.ledger.exceeded && st.Finished(Stdout)
    ensures var st' := ApplyFour(st, STOP[0], STOP[1], STOP[2], STOP[3]);
      && st'.pc == Finishing(OverLimitCause(st), FromHelpers, Stdout)
      && st'.ledger == st.ledger && st'.stdout.reader == st.stdout.reader
      && st'.Finished(Stdout) && !st'.stdout.unsure && st'.stderr.unsure
  {
    hide Snapshot, WithJoined, ReplaceOutput, Take;
  }

  lemma EndsOfStop(st: RunState)
    requires st.pc.Finishing? && st.pc.cause.OverLimit? && st.pc.plan.FromHelpers? && st.pc.s.Stdout?
    requires st.Finished(Stdout) && !st.stdout.unsure && st.stderr.unsure
    ensures var st' := Apply(Apply(Apply(st, STOP[4]), STOP[5]), STOP[6]);
      st'.pc.Reported? && st'.pc.cause.OverLimit? && HasJoined(st'.stdout) && st'.stderr.end.Some?
        && !HasJoined(st'.stderr)
  {
    hide Snapshot, WithJoined, ReplaceOutput, Take;
  }

  /** Stopping for any other reason: a joined stream is handed over in full; a
      detached one as an honest prefix that is never called complete. */
  lemma OtherStopsHandOver(c: Config, schedule: seq<Label>, s: Stream)
    requires var pc := Execute(c, schedule).pc; pc.Reported? && pc.cause.OtherCause? && pc.captured.Some?
    ensures var st := Execute(c, schedule);
      var output := st.pc.captured.value.Get(s);
      var whole := Capture(ConsumedBy(st, s), c.limits.Cap(s), output.complete);
      && st.Get(s).end.Some?
      && (st.Get(s).end.value.Joined? ==>
            output == whole && st.Finished(s) && (output.complete ==> st.Get(s).reader.sawEof))
      && (st.Get(s).end.value.Detached? ==>
            output.bytes <= whole.bytes && (output.truncated ==> whole.truncated) && !output.complete)
  {
    EveryReachableStateOk(c, schedule);
    OtherReport(c, Execute(c, schedule), s);
    hide Execute;
  }

  lemma OtherReport(c: Config, st: RunState, s: Stream)
    requires StateOk(st) && st.config == c && st.pc.Reported? && st.pc.cause.OtherCause? && st.pc.captured.Some?
    ensures st.stdout.end.Some? && st.stderr.end.Some? && st.pc.captured.value == Ends(st)
    ensures var output := OutputOf(st.Get(s).end.value);
      if HasJoined(st.Get(s)) then
        && st.Finished(s) && (st.Get(s).reader.pc.stop.AtEof? ==> st.Get(s).reader.sawEof)
        && output == Capture(ConsumedBy(st, s), c.limits.Cap(s), st.Get(s).reader.pc.stop.AtEof?)
      else
        && output.bytes <= Retained(ConsumedBy(st, s), c.limits.Cap(s)) && !output.complete
        && (output.truncated ==> Overflows(ConsumedBy(st, s), c.limits.Cap(s)))
  {
    hide Retained, Overflows, Report, Balanced, TeeOk;
    if st.Get(s).end.value.Joined? {
      ReplacedOutput(st.Get(s).reader.pc.result,
        Capture(ConsumedBy(st, s), c.limits.Cap(s), st.Get(s).reader.pc.stop.AtEof?));
    }
  }

  // ---------------------------------------------------------------------
  // An unexceeded budget is invisible

  /** What an unbudgeted reader sees where a budgeted one sees `e`. */
  function Unbudgeted(e: Event): seq<Event> {
    if e == Ready(PeekEof) then [Ready(Readable(CHUNK_SIZE)), Answered(Ok([])), Internal] else [e]
  }

  predicate Moves(st: RunState, s: Stream, move: Label) {
    move.ReaderMoves? && move.s == s && Allowed(st, s, move.event) && Enabled(st.MachineOf(s), move.event)
  }

  /** The outcomes that the reader of `s` met in a schedule, in order. */
  function OwnEvents(c: Config, schedule: seq<Label>, s: Stream): seq<Event> {
    if schedule == [] then []
    else
      var n := |schedule| - 1;
      OwnEvents(c, schedule[..n], s)
        + (if Moves(Execute(c, schedule[..n]), s, schedule[n]) then Unbudgeted(schedule[n].event) else [])
  }

  /** The same loop over the same outcomes, alone and without a budget. */
  function Alone(c: Config, schedule: seq<Label>, s: Stream): Machine {
    Run(c.OptionsOf(s), Machine(StartReader(c.OptionsOf(s)), NoBudget), OwnEvents(c, schedule, s))
  }

  /** Equal up to where the bytes are kept. */
  ghost predicate SameView(m: Machine, u: Machine) {
    && u.account.NoBudget?
    && (m.reader.pc == u.reader.pc || (m.reader.pc.Finished? && u.reader.pc.Finished?))
    && Left(m.reader.pc) == Left(u.reader.pc)
    && (m.reader.tee, m.reader.teeContent, m.reader.writeError)
      == (u.reader.tee, u.reader.teeContent, u.reader.writeError)
    && (m.reader.consumed, m.reader.sawEof, m.reader.sawCancel)
      == (u.reader.consumed, u.reader.sawEof, u.reader.sawCancel)
  }

  lemma ReadLooksSame(o: Options, m: Machine, u: Machine, answer: Result<seq<Byte>, IoError>)
    requires MachineOk(o, m) && m.account.Budget? && SameView(m, u)
    requires Enabled(m, Answered(answer)) && !m.account.ledger.halted
    ensures SameView(Step(o, m, Answered(answer)), Step(o, u, Answered(answer)))
  {
    var Budget(l, s, b) := m.account;
    var ready := m.reader.pc.ready;
    RunningRequestIsPositive(l, b, CHUNK_SIZE, ready);
    ReadReturnsAnswer(l, b, s, CHUNK_SIZE, ready, answer);
    hide MachineOk, AfterReadReady, KeepBytes, Drops;
  }

  lemma WaitLooksSame(o: Options, m: Machine, u: Machine, e: Event)
    requires m.account.Budget? && SameView(m, u) && Enabled(m, e) && (e.Observe? || e.Ready?) && e != Ready(PeekEof)
    ensures SameView(Step(o, m, e), Step(o, u, e))
  {
    hide StepRead, StepTee, StepMark, StepFlush, StepReport;
    if e.Observe? {
      ObserveLooksSame(m, u, e.cancelled);
    } else {
      ReadyLooksSame(m, u, e.readiness);
    }
    hide StepObserve, StepReady, SameView;
  }

  lemma ObserveLooksSame(m: Machine, u: Machine, cancelled: bool)
    requires SameView(m, u) && !m.reader.pc.Finished?
    ensures SameView(StepObserve(m, cancelled), StepObserve(u, cancelled)) && m.reader.pc == u.reader.pc
  {
  }

  lemma ReadyLooksSame(m: Machine, u: Machine, readiness: Readiness)
    requires SameView(m, u) && !m.reader.pc.Finished?
    ensures SameView(StepReady(m, readiness), StepReady(u, readiness)) && m.reader.pc == u.reader.pc
  {
  }

  lemma TeeLooksSame(o: Options, m: Machine, u: Machine, e: Event)
    requires m.account.Budget? && SameView(m, u) && Enabled(m, e) && (e.TeeWrite? || e.Flush?)
    ensures SameView(Step(o, m, e), Step(o, u, e))
  {
    hide StepRead, StepObserve, StepReady, StepMark, StepReport;
  }

  lemma LockLooksSame(o: Options, m: Machine, u: Machine)
    requires m.account.Budget? && SameView(m, u) && Enabled(m, Internal)
    requires !m.account.ledger.halted && !m.account.ledger.exceeded
    ensures SameView(Step(o, m, Internal), Step(o, u, Internal))
  {
    hide StepRead, StepObserve, StepReady, StepTee, StepFlush, Snapshot, Report;
  }

  /** End of file seen while waiting is end of file read. */
  lemma PeekLooksSame(o: Options, m: Machine, u: Machine)
    requires SameView(m, u) && m.account.Budget? && m.reader.pc.AwaitReady?
    ensures SameView(Step(o, m, Ready(PeekEof)), Run(o, u, Unbudgeted(Ready(PeekEof))))
  {
    var u1 := Goto(u, Reading(CHUNK_SIZE));
    var u2 := GotNothing(u1, CHUNK_SIZE);
    PeekAlone(o, u);
    assert Step(o, m, Ready(PeekEof)) == m.(reader := m.reader.(pc := Marking, sawEof := true));
    hide Step, Run;
  }

  lemma PeekAlone(o: Options, u: Machine)
    requires u.account.NoBudget? && u.reader.pc.AwaitReady?
    ensures Run(o, u, Unbudgeted(Ready(PeekEof))) == u.(reader := u.reader.(pc := Marking, sawEof := true))
  {
    var a, b, d := Ready(Readable(CHUNK_SIZE)), Answered(Ok([])), Internal;
    var u1 := Goto(u, Reading(CHUNK_SIZE));
    var u2 := GotNothing(u1, CHUNK_SIZE);
    assert Step(o, u, a) == u1;
    assert Step(o, u1, b) == u2;
    assert Step(o, u2, d) == Goto(u2, Marking);
    hide Step;
    RunExtends(o, u, [], a);
    RunExtends(o, u, [a], b);
    RunExtends(o, u, [a, b], d);
    assert [] + [a] == [a] && [a] + [b] == [a, b] && [a, b] + [d] == Unbudgeted(Ready(PeekEof));
  }

  lemma StepLooksSame(o: Options, m: Machine, u: Machine, e: Event)
    requires MachineOk(o, m) && m.account.Budget? && SameView(m, u) && Enabled(m, e)
    requires !m.account.ledger.halted
    ensures SameView(Step(o, m, e), Run(o, u, Unbudgeted(e)))
  {
    OkIsBalanced(o, m);
    if e == Ready(PeekEof) {
      PeekLooksSame(o, m, u);
    } else {
      assert [] + [e] == [e];
      RunExtends(o, u, [], e);
      if e.Answered? {
        ReadLooksSame(o, m, u, e.answer);
      } else if e.Internal? {
        LockLooksSame(o, m, u);
      } else if e.TeeWrite? || e.Flush? {
        TeeLooksSame(o, m, u, e);
      } else {
        WaitLooksSame(o, m, u, e);
      }
    }
    hide Step, Enabled, MachineOk;
  }

  lemma {:induction false} RunConcat(o: Options, m: Machine, x: seq<Event>, y: seq<Event>)
    ensures Run(o, m, x + y) == Run(o, Run(o, m, x), y)
  {
    hide Step;
    if y == [] {
      assert x + y == x;
    } else {
      var n := |y| - 1;
      assert (x + y)[..|x + y| - 1] == x + y[..n];
      RunConcat(o, m, x, y[..n]);
    }
  }

  lemma {:induction false} UnhaltedLooksAlone(c: Config, schedule: seq<Label>, s: Stream)
    requires !Execute(c, schedule).ledger.halted
    ensures SameView(Execute(c, schedule).MachineOf(s), Alone(c, schedule, s))
  {
    if schedule == [] {
    } else {
      var n := |schedule| - 1;
      var st, move := Execute(c, schedule[..n]), schedule[n];
      MoveProgress(st, move);
      UnhaltedLooksAlone(c, schedule[..n], s);
      EveryReachableStateOk(c, schedule[..n]);
      MoveLooksSame(c, schedule, s);
    }
    hide Apply, StateOk, SameView;
  }

  lemma MoveLooksSame(c: Config, schedule: seq<Label>, s: Stream)
    requires schedule != []
    requires var st := Execute(c, schedule[..|schedule| - 1]);
      !st.ledger.halted && StateOk(st) && st.config == c
        && SameView(st.MachineOf(s), Alone(c, schedule[..|schedule| - 1], s))
    ensures SameView(Execute(c, schedule).MachineOf(s), Alone(c, schedule, s))
  {
    hide StateOk, SameView, StepReader, StepMonitor, StepFinish, Unbudgeted, StartReader, Run, Allowed, Enabled;
    var n := |schedule| - 1;
    var st, move := Execute(c, schedule[..n]), schedule[n];
    if Moves(st, s, move) {
      OwnMoveLooksSame(st, s, move.event, Alone(c, schedule[..n], s));
      var o := c.OptionsOf(s);
      RunConcat(o, Machine(StartReader(o), NoBudget), OwnEvents(c, schedule[..n], s), Unbudgeted(move.event));
    } else {
      assert OwnEvents(c, schedule, s) == OwnEvents(c, schedule[..n], s);
      IdleLane(st, s, move);
      IdleView(st.MachineOf(s), Apply(st, move).MachineOf(s), Alone(c, schedule[..n], s));
    }
  }

  lemma OwnMoveLooksSame(st: RunState, s: Stream, e: Event, u: Machine)
    requires StateOk(st) && !st.ledger.halted && Moves(st, s, ReaderMoves(s, e)) && SameView(st.MachineOf(s), u)
    ensures SameView(Apply(st, ReaderMoves(s, e)).MachineOf(s), Run(st.config.OptionsOf(s), u, Unbudgeted(e)))
  {
    hide PcOk, EndOk, SameView, Enabled, Unbudgeted;
    StepLooksSame(st.config.OptionsOf(s), st.MachineOf(s), u, e);
    StepKeepsMode(st.config.OptionsOf(s), st.MachineOf(s), e);
    hide MachineOk, Step;
  }

  lemma IdleView(m: Machine, m': Machine, u: Machine)
    requires SameView(m, u) && m'.reader == m.reader
    ensures SameView(m', u)
  {
  }

  /** A move of anybody else leaves the reader's locals alone. */
  lemma IdleLane(st: RunState, s: Stream, move: Label)
    requires !Moves(st, s, move)
    ensures Apply(st, move).Get(s).reader == st.Get(s).reader
    ensures Apply(st, move).config == st.config
  {
    hide Snapshot, WithJoined, OutputOf, ReplaceOutput;
  }

  /** As long as the budget has not tripped, it cannot be observed: each reader
      goes through the very run it would make without a budget, with the same tee
      content, and once joined its result is the unbudgeted reader's own result. */
  lemma UnexceededBudgetIsInvisible(c: Config, schedule: seq<Label>, s: Stream)
    requires !Execute(c, schedule).ledger.halted
    ensures var st, u := Execute(c, schedule), Alone(c, schedule, s);
      && u.account.NoBudget?
      && u.reader.consumed == ConsumedBy(st, s)
      && u.reader.teeContent == st.Get(s).reader.teeContent
      && (st.Finished(s) <==> u.reader.pc.Finished?)
      && (HasJoined(st.Get(s)) ==> u.reader.pc.Finished? && st.Get(s).end.value.result == u.reader.pc.result)
  {
    UnhaltedLooksAlone(c, schedule, s);
    EveryReachableStateOk(c, schedule);
    StartOk(c.OptionsOf(s), NoBudget);
    RunKeepsOk(c.OptionsOf(s), Machine(StartReader(c.OptionsOf(s)), NoBudget), OwnEvents(c, schedule, s));
    if HasJoined(Execute(c, schedule).Get(s)) {
      SameResult(c, Execute(c, schedule), s, Alone(c, schedule, s));
    }
    hide Execute, Alone, StateOk;
  }

  lemma SameResult(c: Config, st: RunState, s: Stream, u: Machine)
    requires StateOk(st) && st.config == c && SameView(st.MachineOf(s), u) && MachineOk(c.OptionsOf(s), u)
    requires HasJoined(st.Get(s))
    ensures st.Get(s).end.value.result == u.reader.pc.result
  {
    var r := st.Get(s).reader;
    assert r.pc.Finished?;
    ReplacedReport(r.writeError, r.pc.stop, Delivered(c.OptionsOf(s), st.MachineOf(s).account, r.consumed, r.pc.stop),
                   Capture(r.consumed, c.limits.Cap(s), r.pc.stop.AtEof?));
    hide Report, ReplaceOutput, PcOk, Balanced, TeeOk, Retained, Overflows;
  }
}
