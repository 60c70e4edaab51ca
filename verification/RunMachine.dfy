/** One budgeted run as three concurrent actors: the stdout reader, the stderr
    reader and the runner thread (`running_command.rs`, `command_io.rs`,
    `output_reader.rs`, `output_collector.rs`, `total_output_budget.rs`).

    A schedule is any sequence of labels.  Each label names an actor and an
    outcome chosen by the environment; a label that is not possible in the
    current state changes nothing.  Every lock acquisition is one step, so the
    theorems about `Execute` hold for every interleaving of critical sections. */
module RunMachine {
  import opened Basics
  import opened OutputBudget
  import opened OutputCollector
  import opened OutputReaders

  datatype Config = Config(limits: Limits, stdoutTee: Option<Path>, stderrTee: Option<Path>) {
    function OptionsOf(s: Stream): Options {
      Options(limits.Cap(s), if s.Stdout? then stdoutTee else stderrTee)
    }
  }

  /** Why the runner stops the command; everything but the budget is one case. */
  datatype Cause = OverLimit(limit: nat, observed: nat) | OtherCause

  /** Where the bytes of the final error come from. */
  datatype Plan = FromHelpers | Nothing | FromSnapshot(snapshot: CapturedPair)

  datatype RunnerPc =
    | Polling                       // phase one: before reading the budget
    | PollingRest                   // phase one: child, cancellation, clock, sleep
    | CheckHelper(s: Stream)        // phase two: is this reader finished?
    | CheckStdin                    // phase two: is the stdin writer finished?
    | CheckBudget                   // phase two: some helper is still busy
    | CheckRest                     // phase two: cancellation, clock, sleep
    | FinalBudget                   // all helpers seen finished: read the budget again
    | JoinHelper(s: Stream)         // normal completion
    | Completed
    | Terminating(cause: Cause)
    | Cancelling(cause: Cause, plan: Plan, s: Stream)
    | Finishing(cause: Cause, plan: Plan, s: Stream)
    | Collecting(cause: Cause)
    | Reported(cause: Cause, captured: Option<CapturedPair>)

  /** One reader thread together with the runner's view of it. */
  datatype Lane = Lane(reader: Reader, cancelled: bool, unsure: bool, end: Option<HelperEnd>)

  datatype RunState = RunState(config: Config, ledger: Ledger, stdout: Lane, stderr: Lane, pc: RunnerPc) {
    function Get(s: Stream): Lane {
      if s.Stdout? then stdout else stderr
    }

    function Put(s: Stream, lane: Lane): RunState {
      if s.Stdout? then this.(stdout := lane) else this.(stderr := lane)
    }

    /** The reader of `s` as the step machine of the collector sees it. */
    function MachineOf(s: Stream): Machine {
      Machine(Get(s).reader, Budget(config.limits, s, ledger))
    }

    function Finished(s: Stream): bool {
      Get(s).reader.pc.Finished?
    }
  }

  /** Outcomes of the runner's own operations. */
  datatype Choice =
    | Proceed             // nothing special happened
    | ChildExited
    | StopForOther        // cancellation, timeout, wait or clock failure
    | StdinBusy
    | TerminationFailed
    | CancelFailed
    | Unconfirmed         // a failed cancellation was not confirmed in time
    | ClockOrStdinFailed  // reading the clock or writing stdin failed
    | OutputDiscarded     // this cause keeps no output

  datatype Label = ReaderMoves(s: Stream, event: Event) | RunnerMoves(choice: Choice)

  function Initial(c: Config): RunState {
    RunState(c, EMPTY_LEDGER,
             Lane(StartReader(c.OptionsOf(Stdout)), false, false, None),
             Lane(StartReader(c.OptionsOf(Stderr)), false, false, None),
             Polling)
  }

  // ---------------------------------------------------------------------
  // Reader steps

  /** A reader observes exactly the cancellation flag the runner has stored. */
  predicate Allowed(st: RunState, s: Stream, e: Event) {
    && (e.Observe? ==> e.cancelled == st.Get(s).cancelled)
    && (e.Ready? && e.readiness.WaitCancelled? ==> st.Get(s).cancelled)
  }

  function StepReader(st: RunState, s: Stream, e: Event): RunState {
    if !Allowed(st, s, e) then st
    else
      var m := Step(st.config.OptionsOf(s), st.MachineOf(s), e);
      st.(ledger := if m.account.Budget? then m.account.ledger else st.ledger)
        .Put(s, st.Get(s).(reader := m.reader))
  }

  // ---------------------------------------------------------------------
  // Runner steps

  /** `OutputReader::join` after the thread returned: the budget gives up its bytes. */
  function Join(st: RunState, s: Stream): RunState
    requires st.Finished(s)
  {
    var (ledger, output) := Take(st.ledger, s);
    st.(ledger := ledger)
      .Put(s, st.Get(s).(end := Some(Joined(ReplaceOutput(st.Get(s).reader.pc.result, output)))))
  }

  /** `OutputReader::detached_output`: a copy, never presented as complete. */
  function Detach(st: RunState, s: Stream): RunState {
    st.Put(s, st.Get(s).(end := Some(Detached(Snapshot(st.ledger, s).(complete := false)))))
  }

  function OverLimitCause(st: RunState): Cause {
    OverLimit(st.config.limits.limit, st.ledger.used)
  }

  function FinishHelper(st: RunState, s: Stream, choice: Choice, next: RunnerPc): RunState {
    if st.Get(s).unsure && choice.Unconfirmed? then Detach(st, s).(pc := next)
    else if st.Finished(s) then Join(st, s).(pc := next)
    else st   // still blocked in the join or in the confirmation wait
  }

  function Ends(st: RunState): CapturedPair
    requires st.stdout.end.Some? && st.stderr.end.Some?
  {
    CapturedPair(OutputOf(st.stdout.end.value), OutputOf(st.stderr.end.value))
  }

  predicate EndFailed(end: Option<HelperEnd>) {
    end.Some? && end.value.Joined? && end.value.result.Err?
  }

  /** Collecting fails for the clock or stdin, or because a joined reader failed. */
  predicate FinalizingFails(st: RunState, choice: Choice) {
    choice.ClockOrStdinFailed? || EndFailed(st.stdout.end) || EndFailed(st.stderr.end)
  }

  /** The bytes attached to the final error once every helper is joined or detached. */
  function Collected(st: RunState, cause: Cause, choice: Choice): CapturedPair
    requires st.stdout.end.Some? && st.stderr.end.Some?
  {
    if cause.OverLimit? && FinalizingFails(st, choice)
    then CapturedPair(WithJoined(st.ledger, Stdout, Some(Ends(st))), WithJoined(st.ledger, Stderr, Some(Ends(st))))
    else Ends(st)
  }

  function PlanFor(st: RunState, cause: Cause, choice: Choice): Plan {
    if cause.OverLimit? then
      if choice.TerminationFailed?
      then FromSnapshot(CapturedPair(Snapshot(st.ledger, Stdout), Snapshot(st.ledger, Stderr)))
      else FromHelpers
    else if choice.TerminationFailed? || choice.OutputDiscarded? then Nothing
    else FromHelpers
  }

  function StepMonitor(st: RunState, choice: Choice): RunState {
    match st.pc
    case Polling => st.(pc := if st.ledger.exceeded then Terminating(OverLimitCause(st)) else PollingRest)
    case PollingRest =>
      st.(pc := if choice.ChildExited? then CheckHelper(Stdout)
                else if choice.StopForOther? then Terminating(OtherCause) else Polling)
    case CheckHelper(s) =>
      st.(pc := if !st.Finished(s) then CheckBudget else if s.Stdout? then CheckHelper(Stderr) else CheckStdin)
    case CheckStdin => st.(pc := if choice.StdinBusy? then CheckBudget else FinalBudget)
    case CheckBudget => st.(pc := if st.ledger.exceeded then Terminating(OverLimitCause(st)) else CheckRest)
    case CheckRest => st.(pc := if choice.StopForOther? then Terminating(OtherCause) else CheckHelper(Stdout))
    case FinalBudget => st.(pc := if st.ledger.exceeded then Terminating(OverLimitCause(st)) else JoinHelper(Stdout))
    case _ => st
  }

  function StepFinish(st: RunState, choice: Choice): RunState {
    match st.pc
    case JoinHelper(s) =>
      if st.Finished(s) then Join(st, s).(pc := if s.Stdout? then JoinHelper(Stderr) else Completed) else st
    case Terminating(cause) => st.(pc := Cancelling(cause, PlanFor(st, cause, choice), Stdout))
    case Cancelling(cause, plan, s) =>
      st.Put(s, st.Get(s).(cancelled := true, unsure := choice.CancelFailed?))
        .(pc := if s.Stdout? then Cancelling(cause, plan, Stderr) else Finishing(cause, plan, Stdout))
    case Finishing(cause, plan, s) => FinishHelper(st, s, choice, AfterFinishing(cause, plan, s))
    case Collecting(cause) =>
      if st.stdout.end.Some? && st.stderr.end.Some?
      then st.(pc := Reported(cause, Some(Collected(st, cause, choice)))) else st
    case _ => st
  }

  function AfterFinishing(cause: Cause, plan: Plan, s: Stream): RunnerPc {
    if s.Stdout? then Finishing(cause, plan, Stderr)
    else match plan
      case FromHelpers => Collecting(cause)
      case Nothing => Reported(cause, None)
      case FromSnapshot(snapshot) => Reported(cause, Some(snapshot))
  }

  predicate Monitoring(pc: RunnerPc) {
    pc.Polling? || pc.PollingRest? || pc.CheckHelper? || pc.CheckStdin? || pc.CheckBudget? || pc.CheckRest?
      || pc.FinalBudget?
  }

  function Apply(st: RunState, move: Label): RunState {
    match move
    case ReaderMoves(s, e) => StepReader(st, s, e)
    case RunnerMoves(choice) => if Monitoring(st.pc) then StepMonitor(st, choice) else StepFinish(st, choice)
  }

  function Execute(c: Config, schedule: seq<Label>): RunState {
    if schedule == [] then Initial(c)
    else Apply(Execute(c, schedule[..|schedule| - 1]), schedule[|schedule| - 1])
  }

  // ---------------------------------------------------------------------
  // The invariant of every reachable state

  ghost predicate LaneOk(c: Config, ledger: Ledger, s: Stream, lane: Lane) {
    && MachineOk(c.OptionsOf(s), Machine(lane.reader, Budget(c.limits, s, ledger)))
    && (lane.reader.sawCancel ==> lane.cancelled)
    && EndOk(c, ledger, s, lane)
  }

  /** A joined reader has stopped and owns the whole retained prefix; a detached
      one left a prefix of it behind. */
  ghost predicate EndOk(c: Config, ledger: Ledger, s: Stream, lane: Lane) {
    && (ledger.Get(s).transferred <==> lane.end.Some? && lane.end.value.Joined?)
    && (lane.end.Some? ==> match lane.end.value
          case Joined(result) =>
            && lane.reader.pc.Finished?
            && result == ReplaceOutput(lane.reader.pc.result,
                 Capture(lane.reader.consumed, c.limits.Cap(s), lane.reader.pc.stop.AtEof?))
          case Detached(output) =>
            && output.bytes <= Retained(lane.reader.consumed, c.limits.Cap(s))
            && (output.truncated ==> Overflows(lane.reader.consumed, c.limits.Cap(s)))
            && !output.complete)
  }

  /** `output` is exactly what the caps keep of all bytes ever consumed, and it
      claims completeness only if the pipe itself reported end of file. */
  ghost predicate Faithful(c: Config, s: Stream, lane: Lane, output: CapturedOutput) {
    && output.bytes == Retained(lane.reader.consumed, c.limits.Cap(s))
    && output.truncated == Overflows(lane.reader.consumed, c.limits.Cap(s))
    && (output.complete ==> lane.reader.sawEof)
  }

  ghost predicate FaithfulPair(st: RunState, pair: CapturedPair) {
    Faithful(st.config, Stdout, st.stdout, pair.stdout) && Faithful(st.config, Stderr, st.stderr, pair.stderr)
  }

  /** Stopping for the budget means the sentinel byte was taken, so nothing more
      is consumed and every hand-over so far stays exact. */
  ghost predicate CauseOk(st: RunState, cause: Cause) {
    cause.OverLimit? ==>
      && cause == OverLimit(st.config.limits.limit, st.config.limits.Ceiling())
      && st.ledger.halted
      && (st.stdout.end.Some? ==> Faithful(st.config, Stdout, st.stdout, OutputOf(st.stdout.end.value)))
      && (st.stderr.end.Some? ==> Faithful(st.config, Stderr, st.stderr, OutputOf(st.stderr.end.value)))
  }

  ghost predicate PlanOk(st: RunState, cause: Cause, plan: Plan) {
    match plan
    case FromHelpers => true
    case Nothing => cause.OtherCause?
    case FromSnapshot(snapshot) => cause.OverLimit? && FaithfulPair(st, snapshot)
  }

  ghost predicate Untouched(st: RunState) {
    !st.stdout.cancelled && !st.stderr.cancelled && st.stdout.end.None? && st.stderr.end.None?
  }

  ghost predicate MonitorOk(st: RunState) {
    && Untouched(st)
    && (st.pc == CheckHelper(Stderr) ==> st.Finished(Stdout))
    && (st.pc.CheckStdin? || st.pc.FinalBudget? ==> st.Finished(Stdout) && st.Finished(Stderr))
  }

  /** Normal completion happens with both readers stopped and the budget intact. */
  ghost predicate JoiningOk(st: RunState) {
    && st.Finished(Stdout) && st.Finished(Stderr)
    && !st.stdout.cancelled && !st.stderr.cancelled
    && !st.ledger.halted
  }

  ghost predicate PcOk(st: RunState) {
    match st.pc
    case JoinHelper(s) =>
      JoiningOk(st) && st.stderr.end.None?
      && (if s.Stdout? then st.stdout.end.None? else st.stdout.end.Some? && st.stdout.end.value.Joined?)
    case Completed =>
      JoiningOk(st)
      && st.stdout.end.Some? && st.stdout.end.value.Joined? && st.stderr.end.Some? && st.stderr.end.value.Joined?
    case Terminating(cause) => CauseOk(st, cause) && Untouched(st)
    case Cancelling(cause, plan, _) =>
      CauseOk(st, cause) && PlanOk(st, cause, plan) && st.stdout.end.None? && st.stderr.end.None?
    case Finishing(cause, plan, s) =>
      CauseOk(st, cause) && PlanOk(st, cause, plan) && st.stderr.end.None? && (s.Stdout? <==> st.stdout.end.None?)
    case Collecting(cause) => CauseOk(st, cause) && st.stdout.end.Some? && st.stderr.end.Some?
    case Reported(cause, captured) =>
      CauseOk(st, cause) && st.stdout.end.Some? && st.stderr.end.Some?
      && (cause.OverLimit? ==> captured.Some? && FaithfulPair(st, captured.value))
      && (cause.OtherCause? && captured.Some? ==> captured.value == Ends(st))
    case _ => MonitorOk(st)
  }

  /** The runner has asked both readers to stop. */
  predicate Requested(pc: RunnerPc) {
    pc.Finishing? || pc.Collecting? || pc.Reported?
  }

  /** Both readers are asked to stop, stdout's first, before either is ended; only a
      reader whose request failed is detached. */
  predicate RequestsOk(st: RunState) {
    && (st.stdout.cancelled <==> Requested(st.pc) || (st.pc.Cancelling? && st.pc.s.Stderr?))
    && (st.stderr.cancelled <==> Requested(st.pc))
    && RefusalOk(st.stdout) && RefusalOk(st.stderr)
  }

  predicate RefusalOk(lane: Lane) {
    (lane.unsure ==> lane.cancelled) && (DetachedLane(lane) ==> lane.unsure)
  }

  predicate DetachedLane(lane: Lane) {
    lane.end.Some? && lane.end.value.Detached?
  }

  ghost predicate StateOk(st: RunState) {
    && LaneOk(st.config, st.ledger, Stdout, st.stdout)
    && LaneOk(st.config, st.ledger, Stderr, st.stderr)
    && PcOk(st)
    && RequestsOk(st)
  }

  lemma InitialOk(c: Config)
    ensures StateOk(Initial(c))
  {
    StartOk(c.OptionsOf(Stdout), Budget(c.limits, Stdout, EMPTY_LEDGER));
    StartOk(c.OptionsOf(Stderr), Budget(c.limits, Stderr, EMPTY_LEDGER));
  }

  // Reader steps

  /** What one actor's critical sections may change for everybody else. */
  ghost predicate LedgerMoves(l: Limits, b: Ledger, b': Ledger, s: Stream) {
    && Balanced(l, b')
    && b'.Get(s) == b.Get(s)
    && (b.halted ==> b'.halted)
  }

  lemma PeerKeepsLane(c: Config, b: Ledger, b': Ledger, s: Stream, lane: Lane)
    requires LaneOk(c, b, s, lane) && LedgerMoves(c.limits, b, b', s)
    ensures LaneOk(c, b', s, lane)
  {
  }

  /** How a reader's own step changes its lane and the shared ledger. */
  ghost predicate ReaderProgress(m: Machine, m': Machine) {
    && m.account.Budget? && m'.account.Budget?
    && m'.account.ledger.Get(m.account.stream.Other()) == m.account.ledger.Get(m.account.stream.Other())
    && m'.account.ledger.Get(m.account.stream).transferred == m.account.ledger.Get(m.account.stream).transferred
    && (m.account.ledger.halted ==> m'.account.ledger.halted && m'.reader.consumed == m.reader.consumed)
    && m.reader.consumed <= m'.reader.consumed
    && (m.reader.sawEof ==> m'.reader.sawEof)
    && (m.reader.pc.Finished? ==> m' == m)
  }

  lemma StepProgress(o: Options, m: Machine, e: Event)
    requires m.account.Budget?
    ensures ReaderProgress(m, Step(o, m, e))
    ensures Step(o, m, e).reader.sawCancel ==>
      m.reader.sawCancel || (e.Observe? && e.cancelled) || (e.Ready? && e.readiness.WaitCancelled?)
  {
    if m.reader.pc.Reading? && e.Answered? {
      ReadProgress(o, m, m.reader.pc.ready, e.answer);
    }
    hide StepRead, Report, Snapshot, Asked;
  }

  lemma ReadProgress(o: Options, m: Machine, ready: nat, answer: Result<seq<Byte>, IoError>)
    requires m.account.Budget? && m.reader.pc.Reading?
    ensures ReaderProgress(m, StepRead(o, m, ready, answer))
    ensures StepRead(o, m, ready, answer).reader.sawCancel == m.reader.sawCancel
  {
  }

  lemma PrefixOfRetained(small: seq<Byte>, large: seq<Byte>, cap: Option<nat>)
    requires small <= large
    ensures Retained(small, cap) <= Retained(large, cap)
    ensures Overflows(small, cap) ==> Overflows(large, cap)
  {
  }

  /** The moving reader's own lane. */
  lemma ReaderKeepsOwnLane(st: RunState, s: Stream, e: Event)
    requires StateOk(st) && Allowed(st, s, e)
    ensures var st' := StepReader(st, s, e); LaneOk(st.config, st'.ledger, s, st'.Get(s))
    ensures ReaderProgress(st.MachineOf(s), StepReader(st, s, e).MachineOf(s))
    ensures LedgerMoves(st.config.limits, st.ledger, StepReader(st, s, e).ledger, s.Other())
  {
    var o, m := st.config.OptionsOf(s), st.MachineOf(s);
    var m' := Step(o, m, e);
    StepKeepsOk(o, m, e);
    StepKeepsMode(o, m, e);
    StepProgress(o, m, e);
    PrefixOfRetained(m.reader.consumed, m'.reader.consumed, st.config.limits.Cap(s));
    OkIsBalanced(o, m');
    hide Step, MachineOk, Retained, Overflows, Balanced, RequestsOk, PcOk;
    assert StepReader(st, s, e).MachineOf(s) == m';
  }

  /** A reader step under a runner that is stopping for the budget. */
  lemma ReaderKeepsHandOver(st: RunState, st': RunState, s: Stream, cause: Cause)
    requires CauseOk(st, cause) && ReaderProgress(st.MachineOf(s), st'.MachineOf(s))
    requires st' == st.(ledger := st'.ledger).Put(s, st.Get(s).(reader := st'.Get(s).reader))
    ensures CauseOk(st', cause)
    ensures cause.OverLimit? ==> forall pair :: FaithfulPair(st, pair) ==> FaithfulPair(st', pair)
    ensures st.stdout.end.Some? && st.stderr.end.Some? ==> Ends(st') == Ends(st)
  {
  }

  lemma ReaderKeepsPc(st: RunState, s: Stream, e: Event)
    requires StateOk(st) && Allowed(st, s, e)
    ensures PcOk(StepReader(st, s, e))
  {
    hide Step, MachineOk, LaneOk, Faithful, Ends;
    var st' := StepReader(st, s, e);
    ReaderKeepsOwnLane(st, s, e);
    if st.Finished(s) {
      assert st' == st;
    } else {
      match st.pc {
        case Terminating(cause) => ReaderKeepsHandOver(st, st', s, cause);
        case Cancelling(cause, _, _) => ReaderKeepsHandOver(st, st', s, cause);
        case Finishing(cause, _, _) => ReaderKeepsHandOver(st, st', s, cause);
        case Collecting(cause) => ReaderKeepsHandOver(st, st', s, cause);
        case Reported(cause, _) => ReaderKeepsHandOver(st, st', s, cause);
        case _ =>
      }
    }
  }

  lemma ReaderMoveKeepsOk(st: RunState, s: Stream, e: Event)
    requires StateOk(st)
    ensures StateOk(StepReader(st, s, e))
  {
    if Allowed(st, s, e) {
      var st' := StepReader(st, s, e);
      ReaderKeepsOwnLane(st, s, e);
      ReaderKeepsPc(st, s, e);
      hide Step, MachineOk, PcOk, EndOk;
      PeerKeepsLane(st.config, st.ledger, st'.ledger, s.Other(), st.Get(s.Other()));
    }
  }

  // Runner steps

  lemma MonitoredIsBalanced(st: RunState)
    requires StateOk(st)
    ensures Balanced(st.config.limits, st.ledger)
  {
    OkIsBalanced(st.config.OptionsOf(Stdout), st.MachineOf(Stdout));
    hide MachineOk, Faithful, EndOk;
  }

  lemma MonitorKeepsPc(st: RunState, choice: Choice)
    requires PcOk(st) && Monitoring(st.pc) && Balanced(st.config.limits, st.ledger)
    ensures PcOk(StepMonitor(st, choice))
  {
    hide LaneOk, Faithful, ChannelKept;
  }

  lemma MonitorKeepsRequests(st: RunState, choice: Choice)
    requires RequestsOk(st) && Monitoring(st.pc)
    ensures RequestsOk(StepMonitor(st, choice))
    ensures StepMonitor(st, choice) == st.(pc := StepMonitor(st, choice).pc)
  {
    hide OverLimitCause;
  }

  lemma MonitorKeepsOk(st: RunState, choice: Choice)
    requires StateOk(st) && Monitoring(st.pc)
    ensures StateOk(StepMonitor(st, choice))
  {
    hide LaneOk, PcOk, RequestsOk, StepMonitor, Monitoring;
    MonitoredIsBalanced(st);
    MonitorKeepsPc(st, choice);
    MonitorKeepsRequests(st, choice);
  }

  /** Moving a stopped reader's bytes out keeps its books, and nobody else's change. */
  lemma JoinKeepsLane(c: Config, b: Ledger, s: Stream, lane: Lane)
    requires LaneOk(c, b, s, lane) && lane.reader.pc.Finished? && lane.end.None?
    ensures var (b', output) := Take(b, s);
      && LaneOk(c, b', s, lane.(end := Some(Joined(ReplaceOutput(lane.reader.pc.result, output)))))
      && LedgerMoves(c.limits, b, b', s.Other())
      && Faithful(c, s, lane, output)
      && b'.halted == b.halted
  {
    hide Report, TeeOk;
  }

  lemma SnapshotIsFaithful(c: Config, b: Ledger, s: Stream, lane: Lane)
    requires LaneOk(c, b, s, lane) && !b.Get(s).transferred
    ensures Faithful(c, s, lane, Snapshot(b, s))
    ensures LaneOk(c, b, s, lane.(end := Some(Detached(Snapshot(b, s).(complete := false)))))
  {
    hide ReportOk, TeeOk;
  }

  lemma ReplacedOutput(result: CaptureResult, output: CapturedOutput)
    ensures OutputOf(Joined(ReplaceOutput(result, output))) == output
  {
  }

  /** What joining or detaching `s` does to both lanes. */
  ghost predicate Ended(st: RunState, st': RunState, s: Stream) {
    && LaneOk(st'.config, st'.ledger, Stdout, st'.stdout) && LaneOk(st'.config, st'.ledger, Stderr, st'.stderr)
    && st'.config == st.config
    && st'.ledger.halted == st.ledger.halted
    && st'.Get(s.Other()) == st.Get(s.Other())
    && st'.Get(s) == st.Get(s).(end := st'.Get(s).end)
    && st'.Get(s).end.Some? && Faithful(st.config, s, st.Get(s), OutputOf(st'.Get(s).end.value))
  }

  lemma DetachEnds(st: RunState, s: Stream)
    requires LaneOk(st.config, st.ledger, Stdout, st.stdout) && LaneOk(st.config, st.ledger, Stderr, st.stderr)
    requires st.Get(s).end.None?
    ensures Ended(st, Detach(st, s), s)
  {
    SnapshotIsFaithful(st.config, st.ledger, s, st.Get(s));
    hide LaneOk, Retained, Overflows;
  }

  lemma JoinEnds(st: RunState, s: Stream)
    requires LaneOk(st.config, st.ledger, Stdout, st.stdout) && LaneOk(st.config, st.ledger, Stderr, st.stderr)
    requires st.Get(s).end.None? && st.Finished(s)
    ensures Ended(st, Join(st, s), s) && Join(st, s).Get(s).end.value.Joined?
  {
    var lane := st.Get(s);
    JoinKeepsLane(st.config, st.ledger, s, lane);
    var (b', output) := Take(st.ledger, s);
    ReplacedOutput(lane.reader.pc.result, output);
    PeerKeepsLane(st.config, st.ledger, b', s.Other(), st.Get(s.Other()));
    hide LaneOk, Faithful, Take, ReplaceOutput, Balanced, OutputOf;
  }

  lemma CauseSurvivesEnd(st: RunState, st': RunState, s: Stream, cause: Cause, plan: Plan)
    requires CauseOk(st, cause) && PlanOk(st, cause, plan) && Ended(st, st', s)
    ensures CauseOk(st', cause) && PlanOk(st', cause, plan)
  {
    hide LaneOk;
  }

  lemma FinishingKeepsOk(st: RunState, choice: Choice)
    requires StateOk(st) && st.pc.Finishing?
    ensures StateOk(StepFinish(st, choice))
  {
    hide LaneOk, Faithful, Join, Detach, OutputOf;
    var Finishing(cause, plan, s) := st.pc;
    if st.Get(s).unsure && choice.Unconfirmed? {
      DetachEnds(st, s);
      AfterEndOk(st, Detach(st, s), s);
    } else if st.Finished(s) {
      JoinEnds(st, s);
      AfterEndOk(st, Join(st, s), s);
    }
    hide StateOk, AfterFinishing, Ended;
  }

  lemma AfterEndOk(st: RunState, st': RunState, s: Stream)
    requires StateOk(st) && st.pc.Finishing? && st.pc.s == s && Ended(st, st', s)
    requires DetachedLane(st'.Get(s)) ==> st.Get(s).unsure
    ensures StateOk(st'.(pc := AfterFinishing(st.pc.cause, st.pc.plan, s)))
  {
    hide LaneOk, Faithful, OutputOf;
    CauseSurvivesEnd(st, st', s, st.pc.cause, st.pc.plan);
  }

  lemma CollectedIsFaithful(st: RunState, cause: Cause, choice: Choice)
    requires StateOk(st) && st.pc == Collecting(cause) && cause.OverLimit?
    ensures FaithfulPair(st, Collected(st, cause, choice))
  {
    WithJoinedIsFaithful(st, Stdout);
    WithJoinedIsFaithful(st, Stderr);
    hide Faithful, LaneOk, WithJoined, OutputOf;
  }

  lemma WithJoinedIsFaithful(st: RunState, s: Stream)
    requires StateOk(st) && st.pc.Collecting? && st.pc.cause.OverLimit?
    ensures Faithful(st.config, s, st.Get(s), WithJoined(st.ledger, s, Some(Ends(st))))
  {
    if !st.ledger.Get(s).transferred {
      SnapshotIsFaithful(st.config, st.ledger, s, st.Get(s));
    }
    hide LaneOk, Faithful, OutputOf;
  }

  lemma JoiningKeepsOk(st: RunState, choice: Choice)
    requires StateOk(st) && st.pc.JoinHelper?
    ensures StateOk(StepFinish(st, choice))
  {
    hide LaneOk, Faithful, Join, OutputOf;
    JoinEnds(st, st.pc.s);
  }

  lemma TerminatingKeepsOk(st: RunState, choice: Choice)
    requires StateOk(st) && st.pc.Terminating?
    ensures StateOk(StepFinish(st, choice))
  {
    hide Faithful, MachineOk, Snapshot;
    if st.pc.cause.OverLimit? {
      SnapshotIsFaithful(st.config, st.ledger, Stdout, st.stdout);
      SnapshotIsFaithful(st.config, st.ledger, Stderr, st.stderr);
    }
  }

  lemma CancellingKeepsOk(st: RunState, choice: Choice)
    requires StateOk(st) && st.pc.Cancelling?
    ensures StateOk(StepFinish(st, choice))
  {
    hide MachineOk, Retained, Overflows;
  }

  lemma CollectingKeepsOk(st: RunState, choice: Choice)
    requires StateOk(st) && st.pc.Collecting?
    ensures StateOk(StepFinish(st, choice))
  {
    hide LaneOk, Faithful, WithJoined, OutputOf;
    if st.pc.cause.OverLimit? {
      CollectedIsFaithful(st, st.pc.cause, choice);
    }
  }

  lemma FinishKeepsOk(st: RunState, choice: Choice)
    requires StateOk(st) && !Monitoring(st.pc)
    ensures StateOk(StepFinish(st, choice))
  {
    hide StateOk, FinishHelper, Join, Collected, PlanFor;
    match st.pc {
      case JoinHelper(_) => JoiningKeepsOk(st, choice);
      case Terminating(_) => TerminatingKeepsOk(st, choice);
      case Cancelling(_, _, _) => CancellingKeepsOk(st, choice);
      case Finishing(_, _, _) => FinishingKeepsOk(st, choice);
      case Collecting(_) => CollectingKeepsOk(st, choice);
      case _ =>
    }
  }

  lemma MoveKeepsOk(st: RunState, move: Label)
    requires StateOk(st)
    ensures StateOk(Apply(st, move))
  {
    match move {
      case ReaderMoves(s, e) => ReaderMoveKeepsOk(st, s, e);
      case RunnerMoves(choice) =>
        if Monitoring(st.pc) {
          MonitorKeepsOk(st, choice);
        } else {
          FinishKeepsOk(st, choice);
        }
    }
    hide StateOk, StepReader, StepMonitor, StepFinish;
  }

  lemma {:induction false} EveryReachableStateOk(c: Config, schedule: seq<Label>)
    ensures StateOk(Execute(c, schedule)) && Execute(c, schedule).config == c
  {
    hide StateOk, StepReader, StepMonitor, StepFinish;
    if schedule == [] {
      InitialOk(c);
    } else {
      var before := schedule[..|schedule| - 1];
      EveryReachableStateOk(c, before);
      MoveKeepsOk(Execute(c, before), schedule[|schedule| - 1]);
      ConfigIsFixed(Execute(c, before), schedule[|schedule| - 1]);
    }
  }

  lemma ConfigIsFixed(st: RunState, move: Label)
    ensures Apply(st, move).config == st.config
  {
    hide Step, Take, Snapshot, WithJoined, ReplaceOutput;
  }
}
