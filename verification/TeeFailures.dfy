/** What a failing tee changes in a whole run, in every interleaving: nothing in the
    bytes, and the completeness of a detached stream in exactly one case. */
module TeeFailures {
  import opened Basics
  import opened OutputBudget
  import opened OutputCollector
  import opened OutputReaders
  import opened RunMachine
  import opened RunTheorems

  // ---------------------------------------------------------------------
  // A tee failure never stops a run

  /** The same schedule with every tee write and flush succeeding. */
  function MutedSchedule(schedule: seq<Label>): seq<Label> {
    if schedule == [] then []
    else MutedSchedule(schedule[..|schedule| - 1]) + [MutedMove(schedule[|schedule| - 1])]
  }

  function MutedMove(move: Label): Label {
    if move.ReaderMoves? then move.(event := Muted(move.event)) else move
  }

  predicate SameEnd(a: Option<HelperEnd>, b: Option<HelperEnd>) {
    if a.None? || b.None? then a == b
    else (a.value.Joined? <==> b.value.Joined?) && OutputOf(a.value) == OutputOf(b.value)
  }

  ghost predicate SameLane(st: RunState, q: RunState, s: Stream) {
    && SameCapture(st.MachineOf(s), q.MachineOf(s))
    && (st.Get(s).cancelled, st.Get(s).unsure) == (q.Get(s).cancelled, q.Get(s).unsure)
    && SameEnd(st.Get(s).end, q.Get(s).end)
  }

  predicate SameBytes(a: CapturedOutput, b: CapturedOutput) {
    a.bytes == b.bytes && a.truncated == b.truncated
  }

  /** Two reports agree in bytes and truncation of both streams, and wholly where
      the stream was joined. */
  predicate SameReport(a: Option<CapturedPair>, b: Option<CapturedPair>, stdoutJoined: bool, stderrJoined: bool) {
    if a.None? || b.None? then a == b
    else
      && SameBytes(a.value.stdout, b.value.stdout) && SameBytes(a.value.stderr, b.value.stderr)
      && (stdoutJoined ==> a.value.stdout == b.value.stdout)
      && (stderrJoined ==> a.value.stderr == b.value.stderr)
  }

  predicate SamePc(st: RunState, q: RunState) {
    if st.pc.Reported? && q.pc.Reported? then
      && st.pc.cause == q.pc.cause
      && SameReport(st.pc.captured, q.pc.captured, HasJoined(st.stdout), HasJoined(st.stderr))
    else st.pc == q.pc
  }

  /** Equal but for tees, tee failures, and the completeness reported for detached streams. */
  ghost predicate SameButTees(st: RunState, q: RunState) {
    && (st.config, st.ledger) == (q.config, q.ledger)
    && SamePc(st, q)
    && SameLane(st, q, Stdout) && SameLane(st, q, Stderr)
  }

  /** With and without tee failures the readers take the same bytes, the budget
      counts and halts alike, the runner takes the same way, and a reported error
      carries the same bytes and truncation, and for joined streams also the same
      completeness. */
  lemma {:induction false} TeeFailureNeverStopsARun(c: Config, schedule: seq<Label>)
    ensures SameButTees(Execute(c, schedule), Execute(c, MutedSchedule(schedule)))
  {
    if schedule == [] {
    } else {
      var sofar := schedule[..|schedule| - 1];
      TeeFailureNeverStopsARun(c, sofar);
      EveryReachableStateOk(c, sofar);
      EveryReachableStateOk(c, MutedSchedule(sofar));
      MoveIgnoresTees(Execute(c, sofar), Execute(c, MutedSchedule(sofar)), schedule[|schedule| - 1]);
      var muted := MutedSchedule(schedule);
      assert muted[..|muted| - 1] == MutedSchedule(sofar);
      hide Apply, SameButTees, StateOk;
    }
  }

  lemma MoveIgnoresTees(st: RunState, q: RunState, move: Label)
    requires SameButTees(st, q) && StateOk(st) && StateOk(q)
    ensures SameButTees(Apply(st, move), Apply(q, MutedMove(move)))
  {
    match move {
      case ReaderMoves(s, e) => ReaderIgnoresTees(st, q, s, e);
      case RunnerMoves(choice) =>
        if Monitoring(st.pc) {
          MonitorIgnoresTees(st, q, choice);
        } else {
          FinishIgnoresTees(st, q, choice);
        }
    }
    hide SameButTees, StepReader, StepMonitor, StepFinish, StateOk;
    SamePcKind(st, q);
  }

  lemma SamePcKind(st: RunState, q: RunState)
    requires SameButTees(st, q)
    ensures Monitoring(st.pc) <==> Monitoring(q.pc)
  {
    hide SameLane, SameReport;
  }

  /** What a reader's own move changes in the state. */
  lemma ReaderMoveShape(st: RunState, s: Stream, e: Event)
    requires Allowed(st, s, e)
    ensures var st' := StepReader(st, s, e);
      && st'.MachineOf(s) == Step(st.config.OptionsOf(s), st.MachineOf(s), e)
      && st'.Get(s) == st.Get(s).(reader := st'.Get(s).reader)
      && st'.Get(s.Other()) == st.Get(s.Other())
      && (st'.config, st'.pc) == (st.config, st.pc)
  {
    StepKeepsMode(st.config.OptionsOf(s), st.MachineOf(s), e);
    hide Step;
  }

  lemma ReaderIgnoresTees(st: RunState, q: RunState, s: Stream, e: Event)
    requires SameButTees(st, q)
    ensures SameButTees(StepReader(st, s, e), StepReader(q, s, Muted(e)))
  {
    var st', q' := StepReader(st, s, e), StepReader(q, s, Muted(e));
    StepIgnoresTee(st.config.OptionsOf(s), st.MachineOf(s), q.MachineOf(s), e);
    MutedIsAllowed(st, q, s, e);
    if Allowed(st, s, e) {
      ReaderMoveShape(st, s, e);
      ReaderMoveShape(q, s, Muted(e));
      hide Step, SameEnd, SameCapture, StepReader, Allowed;
      SameCaptureSameLedger(st', q', s);
      PeerIgnoresTees(st, q, st', q', s.Other());
    }
  }

  lemma MutedIsAllowed(st: RunState, q: RunState, s: Stream, e: Event)
    requires SameLane(st, q, s)
    ensures Allowed(st, s, e) <==> Allowed(q, s, Muted(e))
  {
    hide SameCapture, SameEnd;
  }

  lemma SameCaptureSameLedger(st: RunState, q: RunState, s: Stream)
    requires SameCapture(st.MachineOf(s), q.MachineOf(s))
    ensures st.ledger == q.ledger
  {
  }

  lemma PeerIgnoresTees(st: RunState, q: RunState, st': RunState, q': RunState, s: Stream)
    requires SameCapture(st.MachineOf(s), q.MachineOf(s))
    requires st'.Get(s) == st.Get(s) && q'.Get(s) == q.Get(s)
    requires st'.ledger == q'.ledger && st'.config == q'.config
    ensures SameCapture(st'.MachineOf(s), q'.MachineOf(s))
  {
  }

  lemma MonitorIgnoresTees(st: RunState, q: RunState, choice: Choice)
    requires SameButTees(st, q)
    ensures SameButTees(StepMonitor(st, choice), StepMonitor(q, choice))
  {
    SameFinished(st, q);
    hide SameEnd, SameCapture, OverLimitCause;
    var st', q' := StepMonitor(st, choice), StepMonitor(q, choice);
    assert st' == st.(pc := st'.pc) && q' == q.(pc := q'.pc);
  }

  lemma SameFinished(st: RunState, q: RunState)
    requires SameButTees(st, q)
    ensures forall s: Stream :: st.Finished(s) <==> q.Finished(s)
  {
    hide SameEnd;
    forall s: Stream ensures st.Finished(s) <==> q.Finished(s) {
      assert SameLane(st, q, s);
    }
  }

  lemma FinishIgnoresTees(st: RunState, q: RunState, choice: Choice)
    requires SameButTees(st, q) && StateOk(st) && StateOk(q) && !Monitoring(st.pc)
    ensures SameButTees(StepFinish(st, choice), StepFinish(q, choice))
  {
    if st.pc.Collecting? {
      CollectingIgnoresTees(st, q, choice);
    } else if st.pc.Reported? {
      hide SameLane, SameReport, StateOk;
    } else {
      EndingIgnoresTees(st, q, choice);
    }
    hide StepFinish, SameButTees, StateOk;
  }

  lemma CollectingIgnoresTees(st: RunState, q: RunState, choice: Choice)
    requires SameButTees(st, q) && StateOk(st) && StateOk(q) && st.pc.Collecting?
    ensures SameButTees(StepFinish(st, choice), StepFinish(q, choice))
  {
    CollectedIgnoresTees(st, q, choice);
    hide Collected, SameEnd, SameCapture, StateOk, SameReport;
  }

  lemma EndingIgnoresTees(st: RunState, q: RunState, choice: Choice)
    requires SameButTees(st, q) && !Monitoring(st.pc) && !st.pc.Collecting? && !st.pc.Reported?
    ensures SameButTees(StepFinish(st, choice), StepFinish(q, choice))
  {
    hide Join, FinishHelper, Collected, SameEnd, SameCapture, PlanFor, SameReport;
    assert st.pc == q.pc;
    match st.pc {
      case JoinHelper(s) => JoinIfFinished(st, q, s);
      case Finishing(cause, plan, s) => FinishHelperIgnoresTees(st, q, s, choice, plan, cause);
      case Terminating(cause) => PlanIgnoresTees(st, q, cause, choice);
      case _ =>
    }
  }

  lemma PlanIgnoresTees(st: RunState, q: RunState, cause: Cause, choice: Choice)
    requires SameButTees(st, q)
    ensures PlanFor(st, cause, choice) == PlanFor(q, cause, choice)
  {
    hide SameLane;
  }

  lemma JoinIfFinished(st: RunState, q: RunState, s: Stream)
    requires SameButTees(st, q) && st.pc == q.pc && !st.pc.Reported?
    ensures st.Finished(s) <==> q.Finished(s)
    ensures st.Finished(s) ==> SameButTees(Join(st, s), Join(q, s))
  {
    if st.Finished(s) {
      JoinIgnoresTees(st, q, s);
    }
    hide Join, SameEnd;
  }

  lemma FinishHelperIgnoresTees(st: RunState, q: RunState, s: Stream, choice: Choice, plan: Plan, cause: Cause)
    requires SameButTees(st, q) && st.pc == q.pc && !st.pc.Reported?
    ensures var next := AfterFinishing(cause, plan, s);
      SameButTees(FinishHelper(st, s, choice, next), FinishHelper(q, s, choice, next))
  {
    JoinIfFinished(st, q, s);
    hide Join, Snapshot;
  }

  /** Collecting, each from its own state: the failing run may take the captures from
      the budget where the healthy one takes those of the helpers. */
  lemma CollectedIgnoresTees(st: RunState, q: RunState, choice: Choice)
    requires SameButTees(st, q) && StateOk(st) && StateOk(q) && st.pc.Collecting?
    ensures st.stdout.end.Some? && st.stderr.end.Some? && q.stdout.end.Some? && q.stderr.end.Some?
    ensures SameReport(Some(Collected(st, st.pc.cause, choice)), Some(Collected(q, st.pc.cause, choice)),
              HasJoined(st.stdout), HasJoined(st.stderr))
  {
    if st.pc.cause.OverLimit? {
      CollectedIsFaithful(st, st.pc.cause, choice);
      CollectedIsFaithful(q, st.pc.cause, choice);
      CollectedFromJoined(st, choice, Stdout);
      CollectedFromJoined(st, choice, Stderr);
      CollectedFromJoined(q, choice, Stdout);
      CollectedFromJoined(q, choice, Stderr);
    }
    hide WithJoined, OutputOf, Retained, Overflows, LaneOk, FinalizingFails;
  }

  /** A joined stream's report is its reader's own result on every path. */
  lemma CollectedFromJoined(st: RunState, choice: Choice, s: Stream)
    requires StateOk(st) && st.pc.Collecting?
    ensures HasJoined(st.Get(s)) ==> Collected(st, st.pc.cause, choice).Get(s) == OutputOf(st.Get(s).end.value)
  {
    hide MachineOk, Faithful, FinalizingFails, OutputOf;
  }

  lemma JoinIgnoresTees(st: RunState, q: RunState, s: Stream)
    requires SameButTees(st, q) && st.pc == q.pc && !st.pc.Reported? && st.Finished(s)
    ensures q.Finished(s) && SameButTees(Join(st, s), Join(q, s))
    ensures Join(st, s).pc == st.pc
  {
    hide Take;
  }

  // ---------------------------------------------------------------------
  // What a tee failure does change

  lemma {:induction false} HealthyTeeKeepsNoError(c: Config, schedule: seq<Label>, s: Stream)
    ensures Execute(c, MutedSchedule(schedule)).Get(s).reader.writeError == None
  {
    if schedule == [] {
    } else {
      var sofar, move := schedule[..|schedule| - 1], schedule[|schedule| - 1];
      HealthyTeeKeepsNoError(c, sofar, s);
      var muted := MutedSchedule(schedule);
      assert muted[..|muted| - 1] == MutedSchedule(sofar);
      MutedMoveKeepsNoError(Execute(c, MutedSchedule(sofar)), move, s);
      hide Apply;
    }
  }

  lemma MutedMoveKeepsNoError(st: RunState, move: Label, s: Stream)
    requires st.Get(s).reader.writeError == None
    ensures Apply(st, MutedMove(move)).Get(s).reader.writeError == None
  {
    if move.ReaderMoves? && move.s == s {
      MutedStepKeepsNoError(st.config.OptionsOf(s), st.MachineOf(s), move.event);
      hide Step;
    } else {
      IdleLane(st, s, MutedMove(move));
      hide Apply;
    }
  }

  lemma MutedStepKeepsNoError(o: Options, m: Machine, e: Event)
    requires m.reader.writeError == None
    ensures Step(o, m, Muted(e)).reader.writeError == None
  {
    hide AfterReadReady, Asked, KeepBytes, Drops, Report, Snapshot;
  }

  /** A joined reader failed exactly if its tee or its pipe did. */
  lemma FailedEndHasCause(st: RunState, s: Stream)
    requires StateOk(st) && HasJoined(st.Get(s))
    ensures st.Finished(s)
    ensures EndFailed(st.Get(s).end) <==> st.Get(s).reader.writeError.Some? || st.Get(s).reader.pc.stop.Broken?
  {
    hide Retained, Overflows, PcOk, TeeOk, EofOk, CaptureOk;
  }

  /** Without tee failures finalizing fails less often. */
  lemma HealthyTeesFailLess(st: RunState, q: RunState, choice: Choice)
    requires StateOk(st) && StateOk(q) && SameButTees(st, q)
    requires q.stdout.reader.writeError == None && q.stderr.reader.writeError == None
    ensures FinalizingFails(q, choice) ==> FinalizingFails(st, choice)
  {
    HealthyEndFailsLess(st, q, Stdout);
    HealthyEndFailsLess(st, q, Stderr);
    hide EndFailed, StateOk, SameLane, SamePc;
  }

  lemma HealthyEndFailsLess(st: RunState, q: RunState, s: Stream)
    requires StateOk(st) && StateOk(q) && SameLane(st, q, s) && q.Get(s).reader.writeError == None
    ensures EndFailed(q.Get(s).end) ==> EndFailed(st.Get(s).end)
  {
    if EndFailed(q.Get(s).end) {
      FailedEndHasCause(q, s);
      FailedEndHasCause(st, s);
    }
    hide StateOk, EndFailed, OutputOf;
  }

  /** A detached stream is reported complete only by the way through a failed
      finalization of an exceeded limit, and then as the budget has it. */
  lemma DetachedComplete(st: RunState, choice: Choice, s: Stream)
    requires StateOk(st) && st.pc.Collecting? && !HasJoined(st.Get(s))
    ensures Collected(st, st.pc.cause, choice).Get(s).complete
            <==> st.pc.cause.OverLimit? && FinalizingFails(st, choice) && st.ledger.Get(s).complete
  {
    hide MachineOk, Faithful, FinalizingFails, Retained, Overflows;
  }

  lemma {:induction false} MutedConcat(x: seq<Label>, y: seq<Label>)
    ensures MutedSchedule(x + y) == MutedSchedule(x) + MutedSchedule(y)
  {
    if y == [] {
      assert x + y == x;
    } else {
      var n := |y| - 1;
      assert (x + y)[..|x + y| - 1] == x + y[..n] && (x + y)[|x + y| - 1] == y[n];
      MutedConcat(x, y[..n]);
    }
  }

  lemma EndsWhenCollecting(st: RunState)
    requires StateOk(st) && st.pc.Collecting?
    ensures st.stdout.end.Some? && st.stderr.end.Some?
  {
  }

  /** Collecting reports at once, and nothing later changes the report. */
  lemma ReportOfCollecting(c: Config, before: seq<Label>, choice: Choice, after: seq<Label>)
    requires Execute(c, before).pc.Collecting?
    ensures var st := Execute(c, before);
      && st.stdout.end.Some? && st.stderr.end.Some?
      && Execute(c, before + [RunnerMoves(choice)] + after).pc
         == Reported(st.pc.cause, Some(Collected(st, st.pc.cause, choice)))
  {
    hide Execute, Collected;
    EveryReachableStateOk(c, before);
    EndsWhenCollecting(Execute(c, before));
    hide StateOk;
    ScheduleSplits(c, before, [RunnerMoves(choice)]);
    assert before + [RunnerMoves(choice)][..0] == before;
    ReportIsFinal(c, before + [RunnerMoves(choice)], after);
  }

  /** What tee failures change in the report of a collected stop, exactly: the
      completeness of a detached stream, if the limit was exceeded, only the run with
      the failures failed to finalize, and the budget had the stream as complete. */
  lemma TeeFailureChangesExactly(c: Config, before: seq<Label>, choice: Choice, after: seq<Label>, s: Stream)
    requires Execute(c, before).pc.Collecting?
    ensures var st, q := Execute(c, before), Execute(c, MutedSchedule(before));
      var schedule := before + [RunnerMoves(choice)] + after;
      var pc, pc' := Execute(c, schedule).pc, Execute(c, MutedSchedule(schedule)).pc;
      && pc.Reported? && pc.captured.Some? && pc'.Reported? && pc'.captured.Some?
      && var a, b := pc.captured.value.Get(s), pc'.captured.value.Get(s);
        && SameBytes(a, b) && (HasJoined(st.Get(s)) ==> a == b)
        && (!HasJoined(st.Get(s)) ==>
              (a != b <==> st.pc.cause.OverLimit? && FinalizingFails(st, choice) && !FinalizingFails(q, choice)
                           && st.ledger.Get(s).complete))
  {
    var st, q := Execute(c, before), Execute(c, MutedSchedule(before));
    var move := [RunnerMoves(choice)];
    TeeFailureNeverStopsARun(c, before);
    EveryReachableStateOk(c, before);
    EveryReachableStateOk(c, MutedSchedule(before));
    ReportOfCollecting(c, before, choice, after);
    MutedConcat(before + move, after);
    MutedConcat(before, move);
    assert MutedSchedule(move) == move by {
      assert move[..0] == [];
    }
    SamePcWhenCollecting(st, q);
    ReportOfCollecting(c, MutedSchedule(before), choice, MutedSchedule(after));
    HealthyTeeKeepsNoError(c, before, Stdout);
    HealthyTeeKeepsNoError(c, before, Stderr);
    hide Execute, MutedSchedule;
    ReportsDiffer(st, q, choice, s);
  }

  lemma SamePcWhenCollecting(st: RunState, q: RunState)
    requires SameButTees(st, q) && st.pc.Collecting?
    ensures q.pc == st.pc
  {
    hide SameLane, SameReport;
  }

  lemma ReportsDiffer(st: RunState, q: RunState, choice: Choice, s: Stream)
    requires StateOk(st) && StateOk(q) && SameButTees(st, q) && st.pc.Collecting? && q.pc == st.pc
    requires q.stdout.reader.writeError == None && q.stderr.reader.writeError == None
    ensures st.stdout.end.Some? && st.stderr.end.Some? && q.stdout.end.Some? && q.stderr.end.Some?
    ensures var a, b := Collected(st, st.pc.cause, choice).Get(s), Collected(q, st.pc.cause, choice).Get(s);
      && SameBytes(a, b) && (HasJoined(st.Get(s)) ==> a == b)
      && (!HasJoined(st.Get(s)) ==>
            (a != b <==> st.pc.cause.OverLimit? && FinalizingFails(st, choice) && !FinalizingFails(q, choice)
                         && st.ledger.Get(s).complete))
  {
    CollectedIgnoresTees(st, q, choice);
    HealthyTeesFailLess(st, q, choice);
    if !HasJoined(st.Get(s)) {
      DetachedComplete(st, choice, s);
      SameJoined(st, q, s);
      DetachedComplete(q, choice, s);
    }
    hide Collected, FinalizingFails, StateOk, SameLane, SamePc;
  }

  lemma SameJoined(st: RunState, q: RunState, s: Stream)
    requires SameButTees(st, q)
    ensures HasJoined(st.Get(s)) <==> HasJoined(q.Get(s))
  {
    hide SameCapture, SamePc, OutputOf;
  }

  /** Move `k` of the schedule collects the helpers' captures. */
  predicate CollectsAt(c: Config, schedule: seq<Label>, k: nat)
    requires k < |schedule|
  {
    schedule[k].RunnerMoves? && Execute(c, schedule[..k]).pc.Collecting?
  }

  /** Only a collected report can differ at all; every other one is wholly the same. */
  lemma {:induction false} OtherReportsAreSame(c: Config, schedule: seq<Label>)
    requires Execute(c, schedule).pc.Reported?
    ensures Execute(c, MutedSchedule(schedule)).pc == Execute(c, schedule).pc
            || exists k :: 0 <= k < |schedule| && CollectsAt(c, schedule, k)
  {
    if schedule == [] {
    } else {
      var n := |schedule| - 1;
      var sofar, move, muted := schedule[..n], schedule[n], MutedSchedule(schedule);
      var st, q := Execute(c, sofar), Execute(c, MutedSchedule(sofar));
      assert muted[..|muted| - 1] == MutedSchedule(sofar);
      TeeFailureNeverStopsARun(c, sofar);
      hide Apply, SameButTees;
      assert Execute(c, schedule) == Apply(st, move);
      assert Execute(c, muted) == Apply(q, MutedMove(move));
      hide Execute, MutedSchedule;
      if st.pc.Reported? {
        OtherReportsAreSame(c, sofar);
        ReportedStays(st, q, move);
        if k: nat :| k < n && CollectsAt(c, sofar, k) {
          assert sofar[..k] == schedule[..k];
          assert CollectsAt(c, schedule, k);
        }
      } else if CollectsAt(c, schedule, n) {
      } else {
        SameUncollected(st, q, move);
      }
    }
  }

  lemma ReportedStays(st: RunState, q: RunState, move: Label)
    requires SameButTees(st, q) && st.pc.Reported?
    ensures Apply(st, move).pc == st.pc && Apply(q, MutedMove(move)).pc == q.pc
  {
    hide SameLane, SameReport, Step;
  }

  lemma SameUncollected(st: RunState, q: RunState, move: Label)
    requires SameButTees(st, q) && !st.pc.Reported? && !(move.RunnerMoves? && st.pc.Collecting?)
    requires Apply(st, move).pc.Reported?
    ensures Apply(q, MutedMove(move)).pc == Apply(st, move).pc
  {
    SameFinished(st, q);
    hide SameEnd, SameCapture, Step, Join, Snapshot, SameReport, PlanFor, Collected, OverLimitCause;
  }

  // A run in which it does

  function MovesOf(s: Stream, events: seq<Event>): seq<Label> {
    if events == [] then []
    else MovesOf(s, events[..|events| - 1]) + [ReaderMoves(s, events[|events| - 1])]
  }

  /** Uncancelled moves of one reader are a run of its step machine. */
  lemma {:induction false} MovesAreRun(c: Config, before: seq<Label>, s: Stream, events: seq<Event>)
    requires !Execute(c, before).Get(s).cancelled
    requires forall e :: e in events ==> e != Observe(true) && e != Ready(WaitCancelled)
    ensures var st, st' := Execute(c, before), Execute(c, before + MovesOf(s, events));
      && st'.MachineOf(s) == Run(st.config.OptionsOf(s), st.MachineOf(s), events)
      && st'.Get(s) == st.Get(s).(reader := st'.Get(s).reader)
      && st'.Get(s.Other()) == st.Get(s.Other())
      && (st'.config, st'.pc) == (st.config, st.pc)
  {
    if events == [] {
      assert before + [] == before;
    } else {
      var n := |events| - 1;
      assert forall e :: e in events[..n] ==> e in events;
      MovesAreRun(c, before, s, events[..n]);
      var moves := MovesOf(s, events);
      ScheduleSplits(c, before, moves);
      assert moves[..|moves| - 1] == MovesOf(s, events[..n]) && moves[|moves| - 1] == ReaderMoves(s, events[n]);
      assert events[n] in events;
      hide Execute, StepReader, Step;
      ReaderMoveShape(Execute(c, before + MovesOf(s, events[..n])), s, events[n]);
    }
  }

  const TEE_CONFIG := Config(LimitsRecord(0, None, None), Some("tee"), None)
  const TEE_ERROR := IoError(1, OtherKind)

  /** Stderr reads nothing and is marked complete. */
  const STDERR_ENDS: seq<Event> := [Observe(false), Ready(Readable(1)), Answered(Ok([])), Internal, Internal]

  /** Stdout takes the sentinel byte, fails to write it to its tee, and stops. */
  const STDOUT_TEE_FAILS: seq<Event> := [
    Observe(false), Ready(Readable(1)), Answered(Ok([7])), Observe(false),
    TeeWrite(Some(TEE_ERROR), 0), Internal, Flush(None), Internal
  ]

  const STDERR_COMPLETE := EMPTY_LEDGER.(stderr := EMPTY_CHANNEL.(complete := true))

  lemma StderrEnds()
    ensures var o, l := TEE_CONFIG.OptionsOf(Stderr), TEE_CONFIG.limits;
      Run(o, Machine(StartReader(o), Budget(l, Stderr, EMPTY_LEDGER)), STDERR_ENDS).account
      == Budget(l, Stderr, STDERR_COMPLETE)
  {
    var o, l := TEE_CONFIG.OptionsOf(Stderr), TEE_CONFIG.limits;
    var m0 := Machine(StartReader(o), Budget(l, Stderr, EMPTY_LEDGER));
    StepsRun(o, m0, STDERR_ENDS);
    var m1 := Step(o, m0, STDERR_ENDS[0]);
    var m2 := Step(o, m1, STDERR_ENDS[1]);
    var m3 := Step(o, m2, STDERR_ENDS[2]);
    assert m3.reader.pc == ZeroSeen && m3.account == m0.account;
    var m4 := Step(o, m3, STDERR_ENDS[3]);
    var m5 := Step(o, m4, STDERR_ENDS[4]);
    assert m5.account == Budget(l, Stderr, STDERR_COMPLETE);
    hide Step;
    FiveSteps(o, m0, STDERR_ENDS);
  }

  function Steps(o: Options, m: Machine, events: seq<Event>): Machine
    decreases events
  {
    if events == [] then m else Steps(o, Step(o, m, events[0]), events[1..])
  }

  lemma {:induction false} StepsRun(o: Options, m: Machine, events: seq<Event>)
    ensures Run(o, m, events) == Steps(o, m, events)
    decreases events
  {
    hide Step;
    if events == [] {
    } else {
      StepsRun(o, Step(o, m, events[0]), events[1..]);
      RunConcat(o, m, [events[0]], events[1..]);
      assert [events[0]] + events[1..] == events;
      assert Run(o, m, [events[0]]) == Step(o, m, events[0]) by {
        assert [events[0]][..0] == [];
      }
    }
  }

  lemma FiveSteps(o: Options, m: Machine, events: seq<Event>)
    requires |events| >= 5
    ensures Steps(o, m, events) == Steps(o,
              Step(o, Step(o, Step(o, Step(o, Step(o, m, events[0]), events[1]), events[2]), events[3]), events[4]),
              events[5..])
    ensures |events| == 5 ==> events[5..] == []
  {
    hide Step;
    var m1 := Step(o, m, events[0]);
    var m2 := Step(o, m1, events[1]);
    var m3 := Step(o, m2, events[2]);
    var m4 := Step(o, m3, events[3]);
    assert events[1..][1..] == events[2..] && events[2..][1..] == events[3..] && events[3..][1..] == events[4..];
    assert events[4..][1..] == events[5..];
    assert Steps(o, m, events) == Steps(o, m1, events[1..]);
    assert Steps(o, m1, events[1..]) == Steps(o, m2, events[2..]);
    assert Steps(o, m2, events[2..]) == Steps(o, m3, events[3..]);
    assert Steps(o, m3, events[3..]) == Steps(o, m4, events[4..]);
  }

  lemma StdoutTeeFails()
    ensures var o, l := TEE_CONFIG.OptionsOf(Stdout), TEE_CONFIG.limits;
      var m := Run(o, Machine(StartReader(o), Budget(l, Stdout, STDERR_COMPLETE)), STDOUT_TEE_FAILS);
      && m.account.Budget? && m.account.ledger.exceeded && m.account.ledger.stderr.complete
      && m.reader.pc.Finished? && m.reader.pc.stop.Stopped? && m.reader.pc.result.Err?
  {
    var o, l := TEE_CONFIG.OptionsOf(Stdout), TEE_CONFIG.limits;
    var m0 := Machine(StartReader(o), Budget(l, Stdout, STDERR_COMPLETE));
    hide Step, Steps, StartReader;
    StepsRun(o, m0, STDOUT_TEE_FAILS);
    var m3 := TakesSentinel();
    var m5 := MissesTee(m3);
    StopsReporting(m5);
    FiveSteps(o, m0, STDOUT_TEE_FAILS);
    LastThreeSteps(o, m5, STDOUT_TEE_FAILS[5..]);
  }

  lemma TakesSentinel() returns (m3: Machine)
    ensures var o, l := TEE_CONFIG.OptionsOf(Stdout), TEE_CONFIG.limits;
      var m0 := Machine(StartReader(o), Budget(l, Stdout, STDERR_COMPLETE));
      m3 == Step(o, Step(o, Step(o, m0, STDOUT_TEE_FAILS[0]), STDOUT_TEE_FAILS[1]), STDOUT_TEE_FAILS[2])
    ensures m3.reader.pc == HaveChunk([7]) && m3.reader.tee == Some("tee") && m3.reader.writeError == None
    ensures m3.account.Budget? && m3.account.ledger.exceeded && m3.account.ledger.stderr.complete
  {
    var o, l := TEE_CONFIG.OptionsOf(Stdout), TEE_CONFIG.limits;
    var m0 := Machine(StartReader(o), Budget(l, Stdout, STDERR_COMPLETE));
    hide StepTee, StepMark, StepFlush, StepReport, Report, Snapshot;
    var m1 := Step(o, m0, STDOUT_TEE_FAILS[0]);
    var m2 := Step(o, m1, STDOUT_TEE_FAILS[1]);
    assert m2.reader == StartReader(o).(pc := Reading(1)) && m2.account == m0.account;
    m3 := Step(o, m2, STDOUT_TEE_FAILS[2]);
  }

  lemma MissesTee(m3: Machine) returns (m5: Machine)
    requires m3.reader.pc == HaveChunk([7]) && m3.reader.tee == Some("tee") && m3.reader.writeError == None
    requires m3.account.Budget? && m3.account.ledger.exceeded && m3.account.ledger.stderr.complete
    ensures var o := TEE_CONFIG.OptionsOf(Stdout);
      m5 == Step(o, Step(o, m3, STDOUT_TEE_FAILS[3]), STDOUT_TEE_FAILS[4])
    ensures m5.reader.pc == Asking && m5.reader.writeError.Some? && m5.account == m3.account && m5.reader.tee == None
  {
    hide StepRead, StepMark, StepFlush, StepReport, StepReady;
    var o := TEE_CONFIG.OptionsOf(Stdout);
    m5 := Step(o, Step(o, m3, STDOUT_TEE_FAILS[3]), STDOUT_TEE_FAILS[4]);
  }

  lemma StopsReporting(m5: Machine)
    requires m5.reader.pc == Asking && m5.reader.writeError.Some? && m5.reader.tee == None
    requires m5.account.Budget? && m5.account.ledger.exceeded
    ensures var o := TEE_CONFIG.OptionsOf(Stdout);
      var m8 := Step(o, Step(o, Step(o, m5, STDOUT_TEE_FAILS[5]), STDOUT_TEE_FAILS[6]), STDOUT_TEE_FAILS[7]);
      && m8.account == m5.account
      && m8.reader.pc.Finished? && m8.reader.pc.stop.Stopped? && m8.reader.pc.result.Err?
  {
    hide StepRead, StepMark, StepReady, StepTee, StepObserve;
  }

  lemma LastThreeSteps(o: Options, m: Machine, events: seq<Event>)
    requires |events| == 3
    ensures Steps(o, m, events) == Step(o, Step(o, Step(o, m, events[0]), events[1]), events[2])
  {
    hide Step;
    var m1 := Step(o, m, events[0]);
    var m2 := Step(o, m1, events[1]);
    assert events[1..][1..] == events[2..] && events[2..][1..] == [];
    assert Steps(o, m1, events[1..]) == Steps(o, m2, events[2..]);
    assert Steps(o, m2, events[2..]) == Steps(o, Step(o, m2, events[2]), []);
  }

  /** The failing run up to the collection of its captures. */
  const TEE_FAILS: seq<Label> := MovesOf(Stderr, STDERR_ENDS) + MovesOf(Stdout, STDOUT_TEE_FAILS) + STOP[..6]

  /** The runner stops for the budget, joins stdout and has to detach stderr. */
  lemma CollectingAfter(st: RunState)
    requires st.pc.Polling? && st.ledger.exceeded && st.Finished(Stdout)
    ensures var st' := ApplyAll(st, STOP[..6]);
      && st'.pc == Collecting(OverLimitCause(st))
      && HasJoined(st'.stdout) && (EndFailed(st'.stdout.end) <==> st.stdout.reader.pc.result.Err?)
      && st'.stderr.end.Some? && !HasJoined(st'.stderr)
      && st'.stdout.reader == st.stdout.reader && st'.ledger.stderr.complete == st.ledger.stderr.complete
  {
    var s4 := ApplyFour(st, STOP[0], STOP[1], STOP[2], STOP[3]);
    RequestsOfStop(st);
    JoinThenDetach(s4);
    hide Apply, ApplyFour;
    SplitMoves(st, STOP[..6]);
    var s5 := Apply(s4, STOP[4]);
    assert STOP[..6][4..] == [STOP[4], STOP[5]] && [STOP[4], STOP[5]][1..] == [STOP[5]] && [STOP[5]][1..] == [];
    assert ApplyAll(s4, [STOP[4], STOP[5]]) == ApplyAll(s5, [STOP[5]]) == ApplyAll(Apply(s5, STOP[5]), []);
  }

  lemma JoinThenDetach(st: RunState)
    requires st.pc.Finishing? && st.pc.plan.FromHelpers? && st.pc.s.Stdout?
    requires st.Finished(Stdout) && !st.stdout.unsure && st.stderr.unsure
    ensures var st' := Apply(Apply(st, STOP[4]), STOP[5]);
      && st'.pc == Collecting(st.pc.cause)
      && HasJoined(st'.stdout) && (EndFailed(st'.stdout.end) <==> st.stdout.reader.pc.result.Err?)
      && st'.stderr.end.Some? && !HasJoined(st'.stderr)
      && st'.stdout.reader == st.stdout.reader && st'.ledger.stderr.complete == st.ledger.stderr.complete
  {
  }

  /** After the readers' moves stdout has stopped with a tee error and a halted
      budget, and stderr is marked complete. */
  lemma ReadersOfTeeFails()
    ensures var st := Execute(TEE_CONFIG, MovesOf(Stderr, STDERR_ENDS) + MovesOf(Stdout, STDOUT_TEE_FAILS));
      && st.pc.Polling? && st.ledger.exceeded && st.ledger.stderr.complete
      && st.Finished(Stdout) && st.stdout.reader.pc.stop.Stopped? && st.stdout.reader.pc.result.Err?
  {
    var first := MovesOf(Stderr, STDERR_ENDS);
    assert [] + first == first;
    MovesAreRun(TEE_CONFIG, [], Stderr, STDERR_ENDS);
    StderrEnds();
    MovesAreRun(TEE_CONFIG, first, Stdout, STDOUT_TEE_FAILS);
    StdoutTeeFails();
    hide Run, MovesOf;
    assert Execute(TEE_CONFIG, []) == Initial(TEE_CONFIG);
  }

  lemma CollectingOfTeeFails()
    ensures var st := Execute(TEE_CONFIG, TEE_FAILS);
      && st.pc.Collecting? && st.pc.cause.OverLimit? && st.ledger.stderr.complete
      && HasJoined(st.stdout) && EndFailed(st.stdout.end) && !HasJoined(st.stderr)
      && st.Finished(Stdout) && st.stdout.reader.pc.stop.Stopped?
  {
    var readers := MovesOf(Stderr, STDERR_ENDS) + MovesOf(Stdout, STDOUT_TEE_FAILS);
    ReadersOfTeeFails();
    CollectingAfter(Execute(TEE_CONFIG, readers));
    hide Execute, MovesOf, ApplyAll;
    RunSteps(TEE_CONFIG, readers, STOP[..6]);
  }

  /** With healthy tees a joined reader that met no pipe error has not failed. */
  lemma HealthyEnd(c: Config, before: seq<Label>, s: Stream)
    requires Execute(c, before).Finished(s) && !Execute(c, before).Get(s).reader.pc.stop.Broken?
    ensures !EndFailed(Execute(c, MutedSchedule(before)).Get(s).end)
  {
    var st, q := Execute(c, before), Execute(c, MutedSchedule(before));
    TeeFailureNeverStopsARun(c, before);
    HealthyTeeKeepsNoError(c, before, s);
    EveryReachableStateOk(c, MutedSchedule(before));
    hide Execute, MutedSchedule, StateOk;
    if HasJoined(q.Get(s)) {
      FailedEndHasCause(q, s);
      assert SameLane(st, q, s);
    }
    hide SamePc, SameEnd;
  }

  /** The failing tee makes the detached stderr stream complete; with a healthy tee
      the same run reports it incomplete. */
  lemma TeeFailureCanChangeCompleteness()
    ensures var schedule := TEE_FAILS + [RunnerMoves(Proceed)];
      var pc, pc' := Execute(TEE_CONFIG, schedule).pc, Execute(TEE_CONFIG, MutedSchedule(schedule)).pc;
      && pc.Reported? && pc.captured.Some? && pc.captured.value.stderr.complete
      && pc'.Reported? && pc'.captured.Some? && !pc'.captured.value.stderr.complete
  {
    hide Execute, MutedSchedule, Collected, StateOk, SameButTees;
    var st, q := Execute(TEE_CONFIG, TEE_FAILS), Execute(TEE_CONFIG, MutedSchedule(TEE_FAILS));
    CollectingOfTeeFails();
    EveryReachableStateOk(TEE_CONFIG, TEE_FAILS);
    DetachedComplete(st, Proceed, Stderr);
    ReportOfCollecting(TEE_CONFIG, TEE_FAILS, Proceed, []);
    TeeFailureNeverStopsARun(TEE_CONFIG, TEE_FAILS);
    SameJoined(st, q, Stderr);
    HealthyEnd(TEE_CONFIG, TEE_FAILS, Stdout);
    TeeFailureChangesExactly(TEE_CONFIG, TEE_FAILS, Proceed, [], Stderr);
    assert TEE_FAILS + [RunnerMoves(Proceed)] + [] == TEE_FAILS + [RunnerMoves(Proceed)];
  }
}
