/** What the runner decides in a whole run, and that it always gets done: when it
    stops and why, that both readers are asked to stop, and that a reader that was
    asked needs nobody's help to stop. */
module RunnerTheorems {
  import opened Basics
  import opened OutputBudget
  import opened OutputCollector
  import opened OutputReaders
  import opened RunMachine
  import opened RunTheorems

  // ---------------------------------------------------------------------
  // Facts that are established by one kind of move

  /** At some step of the schedule, `move` was made in a state, as `p` says. */
  ghost predicate Happened(c: Config, schedule: seq<Label>, p: (RunState, Label) -> bool) {
    exists k :: 0 <= k < |schedule| && p(Execute(c, schedule[..k]), schedule[k])
  }

  lemma HappenedNext(c: Config, schedule: seq<Label>, p: (RunState, Label) -> bool)
    requires schedule != []
    ensures var n := |schedule| - 1;
      Happened(c, schedule, p) <==> Happened(c, schedule[..n], p) || p(Execute(c, schedule[..n]), schedule[n])
  {
    hide Execute;
    var n := |schedule| - 1;
    assert forall k :: 0 <= k < n ==> schedule[..n][..k] == schedule[..k] && schedule[..n][k] == schedule[k];
  }

  /** What can only come from moves `p`. */
  lemma {:induction false} OnlyAfter(c: Config, schedule: seq<Label>, q: RunState -> bool,
                                     p: (RunState, Label) -> bool)
    requires !q(Initial(c))
    requires forall st, move :: StateOk(st) && q(Apply(st, move)) ==> q(st) || p(st, move)
    ensures q(Execute(c, schedule)) ==> Happened(c, schedule, p)
  {
    if schedule == [] {
    } else {
      var n := |schedule| - 1;
      OnlyAfter(c, schedule[..n], q, p);
      EveryReachableStateOk(c, schedule[..n]);
      HappenedNext(c, schedule, p);
      hide Apply, StateOk, Happened;
    }
  }

  /** What moves `p` establish and nothing undoes. */
  lemma {:induction false} EverAfter(c: Config, schedule: seq<Label>, q: RunState -> bool,
                                     p: (RunState, Label) -> bool)
    requires forall st, move :: StateOk(st) && (q(st) || p(st, move)) ==> q(Apply(st, move))
    ensures Happened(c, schedule, p) ==> q(Execute(c, schedule))
  {
    if schedule == [] {
    } else {
      var n := |schedule| - 1;
      EverAfter(c, schedule[..n], q, p);
      EveryReachableStateOk(c, schedule[..n]);
      HappenedNext(c, schedule, p);
      hide Apply, StateOk, Happened;
    }
  }

  // ---------------------------------------------------------------------
  // Requests

  /** Every reader is asked to stop before any reader is joined or detached after a
      stop, and only then; stdout is asked first. */
  lemma RequestsComeFirst(c: Config, schedule: seq<Label>)
    ensures var st := Execute(c, schedule);
      && (st.pc.Finishing? || st.pc.Collecting? || st.pc.Reported? ==> st.stdout.cancelled && st.stderr.cancelled)
      && (st.stderr.cancelled ==> st.stdout.cancelled && (st.pc.Finishing? || st.pc.Collecting? || st.pc.Reported?))
      && (st.stdout.cancelled && !st.stderr.cancelled ==> st.pc.Cancelling? && st.pc.s.Stderr?)
      && (forall s: Stream :: st.Get(s).end.Some? && !st.pc.JoinHelper? && !st.pc.Completed? ==> st.Get(s).cancelled)
  {
    EveryReachableStateOk(c, schedule);
    hide Execute, LaneOk;
    var st := Execute(c, schedule);
    assert st.Get(Stdout) == st.stdout && st.Get(Stderr) == st.stderr;
  }

  /** The request to the reader of `s` is made and fails. */
  predicate Refuses(st: RunState, s: Stream, move: Label) {
    st.pc.Cancelling? && st.pc.s == s && move == RunnerMoves(CancelFailed)
  }

  /** The runner gives up waiting for the reader of `s`. */
  predicate GivesUpOn(st: RunState, s: Stream, move: Label) {
    st.pc.Finishing? && st.pc.s == s && st.Get(s).unsure && move == RunnerMoves(Unconfirmed)
  }

  predicate HasDetached(st: RunState, s: Stream) {
    st.Get(s).end.Some? && st.Get(s).end.value.Detached?
  }

  /** A reader is left behind if and only if the runner gave it up, and it can give up
      only a reader whose own request had failed. */
  lemma DetachedExactly(c: Config, schedule: seq<Label>, s: Stream)
    ensures HasDetached(Execute(c, schedule), s) <==>
      exists k :: 0 <= k < |schedule| && GivesUpOn(Execute(c, schedule[..k]), s, schedule[k])
    ensures Execute(c, schedule).Get(s).unsure <==>
      exists k :: 0 <= k < |schedule| && Refuses(Execute(c, schedule[..k]), s, schedule[k])
    ensures HasDetached(Execute(c, schedule), s) ==>
      exists k :: 0 <= k < |schedule| && Refuses(Execute(c, schedule[..k]), s, schedule[k])
  {
    var detached: RunState -> bool := (st: RunState) => HasDetached(st, s);
    var unsure: RunState -> bool := (st: RunState) => st.Get(s).unsure;
    var givesUp: (RunState, Label) -> bool := (st, move) => GivesUpOn(st, s, move);
    var refuses: (RunState, Label) -> bool := (st, move) => Refuses(st, s, move);
    forall st, move | StateOk(st)
      ensures detached(Apply(st, move)) <==> detached(st) || givesUp(st, move)
      ensures unsure(Apply(st, move)) <==> unsure(st) || refuses(st, move)
    {
      MoveDetaches(st, s, move);
    }
    OnlyAfter(c, schedule, detached, givesUp);
    EverAfter(c, schedule, detached, givesUp);
    OnlyAfter(c, schedule, unsure, refuses);
    EverAfter(c, schedule, unsure, refuses);
    EveryReachableStateOk(c, schedule);
    assert HasDetached(Execute(c, schedule), s) ==> unsure(Execute(c, schedule)) by {
      hide Execute, LaneOk, PcOk;
    }
  }

  lemma MoveDetaches(st: RunState, s: Stream, move: Label)
    requires StateOk(st)
    ensures HasDetached(Apply(st, move), s) <==> HasDetached(st, s) || GivesUpOn(st, s, move)
    ensures Apply(st, move).Get(s).unsure <==> st.Get(s).unsure || Refuses(st, s, move)
  {
    hide Step, LaneOk, Take, Snapshot, ReplaceOutput, CauseOk, PlanOk, PlanFor, Collected;
  }

  // ---------------------------------------------------------------------
  // A reader that was asked to stop

  /** How many own steps a reader that was asked to stop still makes at most. */
  function StepsLeft(pc: Pc): nat {
    match pc
    case Finished(_, _) => 0
    case Reporting(_) => 1
    case Leaving(_) => 2
    case Marking | Top | Blocked | Failed(_) | HaveChunk(_) => 3
    case ZeroSeen | Asking => 4
    case Teeing(_) | Reading(_) => 5
    case AwaitReady => 6
  }

  lemma ReadNearsEnd(o: Options, m: Machine, ready: nat, answer: Result<seq<Byte>, IoError>)
    ensures StepsLeft(StepRead(o, m, ready, answer).reader.pc) < 5
  {
    hide AfterReadReady, KeepBytes, Drops, Asked;
  }

  lemma StepNearsEnd(o: Options, m: Machine, e: Event)
    requires Enabled(m, e) && (e.Observe? ==> e.cancelled)
    ensures StepsLeft(Step(o, m, e).reader.pc) < StepsLeft(m.reader.pc)
  {
    if m.reader.pc.Reading? {
      ReadNearsEnd(o, m, m.reader.pc.ready, e.answer);
    }
    hide StepRead, Report, Snapshot, Asked, AfterMarkComplete;
  }

  lemma MoveNearsEnd(st: RunState, s: Stream, move: Label)
    requires st.Get(s).cancelled && Moves(st, s, move)
    ensures StepsLeft(Apply(st, move).Get(s).reader.pc) < StepsLeft(st.Get(s).reader.pc)
  {
    StepNearsEnd(st.config.OptionsOf(s), st.MachineOf(s), move.event);
    hide Step, StepsLeft, Enabled;
  }

  lemma OtherMoveKeepsReader(st: RunState, s: Stream, move: Label)
    requires !Moves(st, s, move)
    ensures Apply(st, move).Get(s).reader == st.Get(s).reader
  {
    if move.ReaderMoves? && move.s == s {
      hide AfterReadReady, Report, Snapshot, Enabled;
      var o, m := st.config.OptionsOf(s), st.MachineOf(s);
      assert Allowed(st, s, move.event) ==> Step(o, m, move.event) == m;
    } else {
      IdleLane(st, s, move);
      hide Apply;
    }
  }

  lemma RequestStays(st: RunState, s: Stream, move: Label)
    requires st.Get(s).cancelled
    ensures Apply(st, move).Get(s).cancelled
  {
    hide Step, Take, Snapshot, ReplaceOutput, PlanFor, Collected;
  }

  /** The steps that the reader of `s` itself made. */
  function OwnSteps(c: Config, schedule: seq<Label>, s: Stream): nat {
    if schedule == [] then 0
    else
      var n := |schedule| - 1;
      OwnSteps(c, schedule[..n], s) + (if Moves(Execute(c, schedule[..n]), s, schedule[n]) then 1 else 0)
  }

  /** Once asked to stop, a reader makes at most six more steps of its own, whatever
      its pipe, its tee and the other actors do. */
  lemma {:induction false} AskedReaderStopsSoon(c: Config, before: seq<Label>, after: seq<Label>, s: Stream)
    requires Execute(c, before).Get(s).cancelled
    ensures Execute(c, before + after).Get(s).cancelled
    ensures OwnSteps(c, before + after, s) + StepsLeft(Execute(c, before + after).Get(s).reader.pc)
            <= OwnSteps(c, before, s) + StepsLeft(Execute(c, before).Get(s).reader.pc) <= OwnSteps(c, before, s) + 6
  {
    hide Execute, Apply, StepsLeft, Moves;
    assert StepsLeft(Execute(c, before).Get(s).reader.pc) <= 6 by {
      AtMostSix(Execute(c, before).Get(s).reader.pc);
    }
    if after == [] {
      assert before + after == before;
    } else {
      var sofar, move := before + after[..|after| - 1], after[|after| - 1];
      AskedReaderStopsSoon(c, before, after[..|after| - 1], s);
      ScheduleSplits(c, before, after);
      EveryReachableStateOk(c, sofar);
      var st := Execute(c, sofar);
      assert (before + after)[..|before + after| - 1] == sofar;
      RequestStays(st, s, move);
      if Moves(st, s, move) {
        MoveNearsEnd(st, s, move);
      } else {
        OtherMoveKeepsReader(st, s, move);
      }
    }
  }

  lemma AtMostSix(pc: Pc)
    ensures StepsLeft(pc) <= 6
  {
  }

  /** The step a reader that was asked to stop can always make, with no data from its
      pipe: the request itself wakes it. */
  function WakingStep(pc: Pc): Event {
    match pc
    case Top | Blocked | Failed(_) | HaveChunk(_) => Observe(true)
    case AwaitReady => Ready(WaitCancelled)
    case Reading(_) => Answered(Err(IoError(0, WouldBlock)))
    case Teeing(chunk) => TeeWrite(None, |chunk|)
    case Leaving(_) => Flush(None)
    case _ => Internal
  }

  predicate TakesNoData(move: Label) {
    move.ReaderMoves? && move.event.Answered? ==> move.event.answer.Err?
  }

  lemma AskedReaderCanMove(st: RunState, s: Stream)
    requires st.Get(s).cancelled && !st.Finished(s)
    ensures Moves(st, s, ReaderMoves(s, WakingStep(st.Get(s).reader.pc)))
    ensures TakesNoData(ReaderMoves(s, WakingStep(st.Get(s).reader.pc)))
  {
  }

  /** So a reader that was asked to stop can stop, in at most six moves of its own. */
  lemma {:induction false} AskedReaderCanStop(c: Config, before: seq<Label>, s: Stream) returns (moves: seq<Label>)
    requires Execute(c, before).Get(s).cancelled
    ensures |moves| <= StepsLeft(Execute(c, before).Get(s).reader.pc) <= 6
    ensures forall move :: move in moves ==> move.ReaderMoves? && move.s == s && TakesNoData(move)
    ensures Execute(c, before + moves).Finished(s)
    ensures Execute(c, before + moves).pc == Execute(c, before).pc
    decreases StepsLeft(Execute(c, before).Get(s).reader.pc)
  {
    hide Execute, Apply, Moves, WakingStep, StepsLeft;
    var st := Execute(c, before);
    AtMostSix(st.Get(s).reader.pc);
    if st.Finished(s) {
      moves := [];
      assert before + [] == before;
    } else {
      var move := ReaderMoves(s, WakingStep(st.Get(s).reader.pc));
      AskedReaderCanMove(st, s);
      EveryReachableStateOk(c, before);
      MoveNearsEnd(st, s, move);
      RequestStays(st, s, move);
      OneMore(c, before, move);
      ReaderLeavesRunner(st, s, move);
      var rest := AskedReaderCanStop(c, before + [move], s);
      moves := [move] + rest;
      assert before + [move] + rest == before + moves;
    }
  }

  lemma OneMore(c: Config, before: seq<Label>, move: Label)
    ensures Execute(c, before + [move]) == Apply(Execute(c, before), move)
  {
    ScheduleSplits(c, before, [move]);
    assert before + [move][..0] == before;
    hide Execute, Apply;
  }

  lemma ReaderLeavesRunner(st: RunState, s: Stream, move: Label)
    requires move.ReaderMoves?
    ensures Apply(st, move).pc == st.pc
  {
    hide Step, Allowed;
  }

  // ---------------------------------------------------------------------
  // A stop always gets done

  predicate Stopping(pc: RunnerPc) {
    pc.Terminating? || pc.Cancelling? || pc.Finishing? || pc.Collecting? || pc.Reported?
  }

  function StageOf(pc: RunnerPc): nat {
    match pc
    case Terminating(_) => 6
    case Cancelling(_, _, s) => if s.Stdout? then 5 else 4
    case Finishing(_, _, s) => if s.Stdout? then 3 else 2
    case Collecting(_) => 1
    case _ => 0
  }

  lemma ProceedsToNextStage(st: RunState)
    requires StateOk(st) && Stopping(st.pc) && !st.pc.Reported?
    requires st.pc.Finishing? ==> st.Finished(st.pc.s)
    ensures Stopping(Apply(st, RunnerMoves(Proceed)).pc)
    ensures StageOf(Apply(st, RunnerMoves(Proceed)).pc) < StageOf(st.pc)
  {
    hide LaneOk, Join, Snapshot, Collected, CauseOk, PlanOk, Faithful;
    assert st.pc.Finishing? ==> Join(st, st.pc.s).(pc := AfterFinishing(st.pc.cause, st.pc.plan, st.pc.s)).pc
                                == AfterFinishing(st.pc.cause, st.pc.plan, st.pc.s);
  }

  /** Wherever a stop stands, it can be brought to its report without any data from a
      pipe: some continuation of the schedule reports. */
  lemma {:induction false} StopCanReport(c: Config, before: seq<Label>) returns (after: seq<Label>)
    requires Stopping(Execute(c, before).pc)
    ensures Execute(c, before + after).pc.Reported?
    ensures forall move :: move in after ==> TakesNoData(move)
    decreases StageOf(Execute(c, before).pc)
  {
    hide Execute, Apply, LaneOk, PcOk;
    var st := Execute(c, before);
    if st.pc.Reported? {
      after := [];
      assert before + [] == before;
    } else {
      EveryReachableStateOk(c, before);
      var moves := [];
      if st.pc.Finishing? {
        assert st.Get(Stdout).cancelled && st.Get(Stderr).cancelled;
        moves := AskedReaderCanStop(c, before, st.pc.s);
      } else {
        assert before + moves == before;
      }
      EveryReachableStateOk(c, before + moves);
      ProceedsToNextStage(Execute(c, before + moves));
      OneMore(c, before + moves, RunnerMoves(Proceed));
      var rest := StopCanReport(c, before + moves + [RunnerMoves(Proceed)]);
      after := moves + [RunnerMoves(Proceed)] + rest;
      assert before + moves + [RunnerMoves(Proceed)] + rest == before + after;
    }
  }

  // ---------------------------------------------------------------------
  // Why a run stops

  /** The runner reads the budget and finds it exceeded. */
  predicate FindsOverrun(st: RunState, move: Label) {
    move.RunnerMoves? && (st.pc.Polling? || st.pc.CheckBudget? || st.pc.FinalBudget?) && st.ledger.exceeded
  }

  /** Cancellation, timeout, a wait or a clock failure is met. */
  predicate MeetsOtherStop(st: RunState, move: Label) {
    move == RunnerMoves(StopForOther) && (st.pc.PollingRest? || st.pc.CheckRest?)
  }

  predicate SeesExit(st: RunState, move: Label) {
    st.pc.PollingRest? && move == RunnerMoves(ChildExited)
  }

  /** With both readers stopped, the stdin writer is seen to have finished as well. */
  predicate SeesHelpersDone(st: RunState, move: Label) {
    st.pc.CheckStdin? && move.RunnerMoves? && !move.choice.StdinBusy? && st.Finished(Stdout) && st.Finished(Stderr)
  }

  /** The last reading of the budget finds it intact. */
  predicate FindsBudgetIntact(st: RunState, move: Label) {
    st.pc.FinalBudget? && move.RunnerMoves? && !st.ledger.exceeded
  }

  predicate StopsFor(pc: RunnerPc, overLimit: bool) {
    Stopping(pc) && pc.cause.OverLimit? == overLimit
  }

  predicate Completing(pc: RunnerPc) {
    pc.JoinHelper? || pc.Completed?
  }

  lemma MoveDecidesRun(st: RunState, move: Label)
    requires StateOk(st)
    ensures StopsFor(Apply(st, move).pc, true) <==> StopsFor(st.pc, true) || FindsOverrun(st, move)
    ensures StopsFor(Apply(st, move).pc, false) <==> StopsFor(st.pc, false) || MeetsOtherStop(st, move)
    ensures Completing(Apply(st, move).pc) <==> Completing(st.pc) || FindsBudgetIntact(st, move)
  {
    hide Step, LaneOk, Take, Snapshot, ReplaceOutput, CauseOk, PlanOk, PlanFor, Collected, Faithful;
  }

  /** A run stops for an exceeded budget exactly if one of its readings of the budget
      found it exceeded, for another reason exactly if such a reason was met, and
      completes exactly if the last reading found the budget intact. */
  lemma RunStopsExactly(c: Config, schedule: seq<Label>)
    ensures StopsFor(Execute(c, schedule).pc, true)
            <==> exists k :: 0 <= k < |schedule| && FindsOverrun(Execute(c, schedule[..k]), schedule[k])
    ensures StopsFor(Execute(c, schedule).pc, false)
            <==> exists k :: 0 <= k < |schedule| && MeetsOtherStop(Execute(c, schedule[..k]), schedule[k])
    ensures Completing(Execute(c, schedule).pc)
            <==> exists k :: 0 <= k < |schedule| && FindsBudgetIntact(Execute(c, schedule[..k]), schedule[k])
  {
    var limit: RunState -> bool := (st: RunState) => StopsFor(st.pc, true);
    var other: RunState -> bool := (st: RunState) => StopsFor(st.pc, false);
    var completing: RunState -> bool := (st: RunState) => Completing(st.pc);
    var overrun: (RunState, Label) -> bool := (st, move) => FindsOverrun(st, move);
    var otherStop: (RunState, Label) -> bool := (st, move) => MeetsOtherStop(st, move);
    var intact: (RunState, Label) -> bool := (st, move) => FindsBudgetIntact(st, move);
    forall st, move | StateOk(st)
      ensures limit(Apply(st, move)) <==> limit(st) || overrun(st, move)
      ensures other(Apply(st, move)) <==> other(st) || otherStop(st, move)
      ensures completing(Apply(st, move)) <==> completing(st) || intact(st, move)
    {
      MoveDecidesRun(st, move);
    }
    hide StopsFor, Completing, FindsOverrun, MeetsOtherStop, FindsBudgetIntact, StateOk, Apply, Execute;
    NothingAtFirst(c);
    OnlyAfter(c, schedule, limit, overrun);
    EverAfter(c, schedule, limit, overrun);
    OnlyAfter(c, schedule, other, otherStop);
    EverAfter(c, schedule, other, otherStop);
    OnlyAfter(c, schedule, completing, intact);
    EverAfter(c, schedule, completing, intact);
  }

  lemma NothingAtFirst(c: Config)
    ensures var pc := Initial(c).pc;
      !StopsFor(pc, true) && !StopsFor(pc, false) && !Completing(pc) && !InSecondPhase(pc) && !HelpersWereDone(pc)
  {
  }

  predicate InSecondPhase(pc: RunnerPc) {
    pc.CheckHelper? || pc.CheckStdin? || pc.CheckBudget? || pc.CheckRest? || pc.FinalBudget? || Completing(pc)
  }

  predicate HelpersWereDone(pc: RunnerPc) {
    pc.FinalBudget? || Completing(pc)
  }

  lemma MoveNeedsExit(st: RunState, move: Label)
    requires StateOk(st)
    ensures InSecondPhase(Apply(st, move).pc) ==> InSecondPhase(st.pc) || SeesExit(st, move)
    ensures HelpersWereDone(Apply(st, move).pc) ==> HelpersWereDone(st.pc) || SeesHelpersDone(st, move)
  {
    hide Step, LaneOk, Take, Snapshot, ReplaceOutput, CauseOk, PlanOk, PlanFor, Collected, Faithful;
  }

  /** Before a run can complete, the exit of the child was seen, and after it both
      readers and the stdin writer were seen finished. */
  lemma CompletionNeeds(c: Config, schedule: seq<Label>)
    requires Completing(Execute(c, schedule).pc)
    ensures exists k :: 0 <= k < |schedule| && SeesExit(Execute(c, schedule[..k]), schedule[k])
    ensures exists k :: 0 <= k < |schedule| && SeesHelpersDone(Execute(c, schedule[..k]), schedule[k])
  {
    var second: RunState -> bool := (st: RunState) => InSecondPhase(st.pc);
    var done: RunState -> bool := (st: RunState) => HelpersWereDone(st.pc);
    var exits: (RunState, Label) -> bool := (st, move) => SeesExit(st, move);
    var finishes: (RunState, Label) -> bool := (st, move) => SeesHelpersDone(st, move);
    forall st, move | StateOk(st)
      ensures second(Apply(st, move)) ==> second(st) || exits(st, move)
      ensures done(Apply(st, move)) ==> done(st) || finishes(st, move)
    {
      MoveNeedsExit(st, move);
    }
    NothingAtFirst(c);
    assert second(Execute(c, schedule)) && done(Execute(c, schedule));
    hide InSecondPhase, HelpersWereDone, SeesExit, SeesHelpersDone, StateOk, Apply, Execute;
    OnlyAfter(c, schedule, second, exits);
    OnlyAfter(c, schedule, done, finishes);
  }

  /** The termination fails, or the reason keeps no output. */
  predicate DropsOutput(st: RunState, move: Label) {
    && st.pc.Terminating? && st.pc.cause.OtherCause?
    && (move == RunnerMoves(TerminationFailed) || move == RunnerMoves(OutputDiscarded))
  }

  predicate OutputDropped(pc: RunnerPc) {
    match pc
    case Cancelling(_, plan, _) => plan.Nothing?
    case Finishing(_, plan, _) => plan.Nothing?
    case Reported(_, captured) => captured.None?
    case _ => false
  }

  lemma MoveDropsOutput(st: RunState, move: Label)
    ensures OutputDropped(Apply(st, move).pc) <==> OutputDropped(st.pc) || DropsOutput(st, move)
  {
    hide Step, Take, Snapshot, ReplaceOutput, Collected;
  }

  /** A report carries no output exactly if the run stopped for another reason than the
      budget and its output was given up when the child was to be terminated. */
  lemma OutputIsDroppedExactly(c: Config, schedule: seq<Label>)
    requires Execute(c, schedule).pc.Reported?
    ensures Execute(c, schedule).pc.captured.None?
            <==> exists k :: 0 <= k < |schedule| && DropsOutput(Execute(c, schedule[..k]), schedule[k])
  {
    var dropped: RunState -> bool := (st: RunState) => OutputDropped(st.pc);
    var drops: (RunState, Label) -> bool := (st, move) => DropsOutput(st, move);
    forall st, move | StateOk(st)
      ensures dropped(Apply(st, move)) <==> dropped(st) || drops(st, move)
    {
      MoveDropsOutput(st, move);
    }
    assert dropped(Execute(c, schedule)) <==> Execute(c, schedule).pc.captured.None?;
    assert !dropped(Initial(c));
    hide OutputDropped, DropsOutput, StateOk, Apply, Execute;
    OnlyAfter(c, schedule, dropped, drops);
    EverAfter(c, schedule, dropped, drops);
  }

  // ---------------------------------------------------------------------
  // A halt is noticed

  /** How many own moves the runner makes at most before it notices a halt. */
  function MovesToNotice(pc: RunnerPc): nat {
    match pc
    case Polling | CheckBudget | FinalBudget => 1
    case CheckStdin => 2
    case CheckHelper(s) => if s.Stdout? then 4 else 3
    case PollingRest | CheckRest => 5
    case _ => 0
  }

  function RunnerSteps(schedule: seq<Label>): nat {
    if schedule == [] then 0
    else RunnerSteps(schedule[..|schedule| - 1]) + (if schedule[|schedule| - 1].RunnerMoves? then 1 else 0)
  }

  lemma MonitorNotices(st: RunState, choice: Choice)
    requires PcOk(st) && st.ledger.exceeded && Monitoring(st.pc)
    ensures var pc := StepMonitor(st, choice).pc;
      (Monitoring(pc) || pc.Terminating?) && MovesToNotice(pc) < MovesToNotice(st.pc)
  {
    hide LaneOk, OverLimitCause;
  }

  lemma StoppingGoesOn(st: RunState, choice: Choice)
    requires Stopping(st.pc)
    ensures Stopping(StepFinish(st, choice).pc)
  {
    hide Take, Snapshot, ReplaceOutput, PlanFor, Collected;
  }

  lemma MoveNotices(st: RunState, move: Label)
    requires StateOk(st) && st.ledger.halted && (Monitoring(st.pc) || Stopping(st.pc))
    ensures var pc := Apply(st, move).pc;
      && (Monitoring(pc) || Stopping(pc))
      && (move.RunnerMoves? && Monitoring(st.pc) ==> MovesToNotice(pc) < MovesToNotice(st.pc))
      && (Stopping(st.pc) ==> Stopping(pc))
      && (move.ReaderMoves? ==> pc == st.pc)
  {
    MonitoredIsBalanced(st);
    match move {
      case ReaderMoves(s, _) => ReaderLeavesRunner(st, s, move);
      case RunnerMoves(choice) =>
        if Monitoring(st.pc) {
          MonitorNotices(st, choice);
        } else {
          StoppingGoesOn(st, choice);
        }
    }
    hide StepReader, StepMonitor, StepFinish, LaneOk, PcOk, ChannelKept;
  }

  /** Once the budget is halted, the runner stops the run after at most five moves of
      its own, whatever it meets on the way and whatever the readers do. */
  lemma {:induction false} HaltIsNoticed(c: Config, before: seq<Label>, after: seq<Label>)
    requires Execute(c, before).ledger.halted
    requires Monitoring(Execute(c, before).pc) || Stopping(Execute(c, before).pc)
    ensures var pc := Execute(c, before + after).pc;
      && (Monitoring(pc) || Stopping(pc))
      && (Monitoring(pc) ==> RunnerSteps(after) + MovesToNotice(pc) <= MovesToNotice(Execute(c, before).pc) <= 5)
      && (RunnerSteps(after) >= 5 ==> Stopping(pc))
  {
    hide Execute, Apply, StateOk;
    if after == [] {
      assert before + after == before;
    } else {
      var n := |after| - 1;
      HaltIsNoticed(c, before, after[..n]);
      ScheduleSplits(c, before, after);
      EveryReachableStateOk(c, before + after[..n]);
      HaltedRunTakesNothing(c, before, after[..n]);
      MoveNotices(Execute(c, before + after[..n]), after[n]);
    }
  }
}
