/** What each reader does in a whole run, in every interleaving with its peer and
    the runner: the collector's own promises, and when exactly a stream that ended
    is marked complete. */
module ReaderTheorems {
  import opened Basics
  import opened OutputBudget
  import opened OutputCollector
  import opened RunMachine
  import opened RunTheorems

  // ---------------------------------------------------------------------
  // Tee, result and failures

  /** The tee of a stream is always a prefix of what its reader took, and all of it
      at end of file without tee error; the result of a stopped reader says exactly
      which of tee and pipe failed, with the flags of everything it took. */
  lemma ReaderInEveryRun(c: Config, schedule: seq<Label>, s: Stream)
    ensures var r := Execute(c, schedule).Get(s).reader;
      && r.teeContent <= r.consumed
      && (r.pc.Finished? ==>
            && r.pc.result == Report(r.writeError, r.pc.stop,
                 Capture(r.consumed, c.limits.Cap(s), r.pc.stop.AtEof?).(bytes := []))
            && (r.pc.result.Ok? <==> r.writeError.None? && !r.pc.stop.Broken?)
            && (r.pc.stop.AtEof? ==> r.sawEof)
            && (r.pc.stop.AtEof? && c.OptionsOf(s).tee.Some? && r.writeError.None? ==> r.teeContent == r.consumed))
  {
    EveryReachableStateOk(c, schedule);
    hide Execute, PcOk, EndOk, Retained, Overflows;
  }

  /** Whatever the peer, the runner and the reader itself do later, a tee failure is
      neither replaced nor erased. */
  lemma {:induction false} TeeFailureSurvivesEveryRun(c: Config, before: seq<Label>, after: seq<Label>, s: Stream)
    requires Execute(c, before).Get(s).reader.writeError.Some?
    ensures Execute(c, before + after).Get(s).reader.writeError == Execute(c, before).Get(s).reader.writeError
  {
    hide Execute;
    if after == [] {
      assert before + after == before;
    } else {
      var sofar := before + after[..|after| - 1];
      TeeFailureSurvivesEveryRun(c, before, after[..|after| - 1], s);
      ScheduleSplits(c, before, after);
      EveryReachableStateOk(c, sofar);
      MoveKeepsTeeFailure(Execute(c, sofar), after[|after| - 1], s);
      hide Apply, StateOk;
    }
  }

  lemma MoveKeepsTeeFailure(st: RunState, move: Label, s: Stream)
    requires StateOk(st) && st.Get(s).reader.writeError.Some?
    ensures Apply(st, move).Get(s).reader.writeError == st.Get(s).reader.writeError
  {
    if move.ReaderMoves? && move.s == s {
      StepKeepsTeeFailure(st.config.OptionsOf(s), st.MachineOf(s), move.event);
      hide Step;
    } else {
      IdleLane(st, s, move);
      hide Apply;
    }
  }

  // ---------------------------------------------------------------------
  // When a stream that ended is marked complete

  /** The reader of `s` takes the way to "complete": its question after a read of
      nothing finds the budget running, or the wait itself reports end of file. */
  predicate DecidesEof(st: RunState, s: Stream, move: Label) {
    && move.ReaderMoves? && move.s == s
    && match st.Get(s).reader.pc
       case ZeroSeen => move.event.Internal? && !st.ledger.halted
       case AwaitReady => move.event == Ready(PeekEof)
       case _ => false
  }

  predicate OnTheWayToComplete(pc: Pc) {
    pc.Marking? || Left(pc) == Some(AtEof)
  }

  lemma MoveDecidesEof(st: RunState, s: Stream, move: Label)
    ensures OnTheWayToComplete(Apply(st, move).Get(s).reader.pc)
            <==> OnTheWayToComplete(st.Get(s).reader.pc) || DecidesEof(st, s, move)
  {
    if move.ReaderMoves? && move.s == s {
      StepDecidesEof(st.config.OptionsOf(s), st.MachineOf(s), move.event);
      hide Step;
    } else {
      IdleLane(st, s, move);
      hide Apply;
    }
  }

  lemma StepDecidesEof(o: Options, m: Machine, e: Event)
    requires m.account.Budget?
    ensures OnTheWayToComplete(Step(o, m, e).reader.pc)
            <==> OnTheWayToComplete(m.reader.pc)
                 || (m.reader.pc.ZeroSeen? && e.Internal? && !m.account.ledger.halted)
                 || (m.reader.pc.AwaitReady? && e == Ready(PeekEof))
  {
    if m.reader.pc.Reading? && e.Answered? {
      ReadDecidesNothing(o, m, m.reader.pc.ready, e.answer);
    }
    hide StepRead, Asked, Report, Snapshot;
  }

  lemma ReadDecidesNothing(o: Options, m: Machine, ready: nat, answer: Result<seq<Byte>, IoError>)
    ensures !OnTheWayToComplete(StepRead(o, m, ready, answer).reader.pc)
  {
    hide AfterReadReady, KeepBytes, Drops;
  }

  lemma {:induction false} EofIsDecidedOnce(c: Config, schedule: seq<Label>, s: Stream)
    ensures OnTheWayToComplete(Execute(c, schedule).Get(s).reader.pc)
            <==> exists k :: 0 <= k < |schedule| && DecidesEof(Execute(c, schedule[..k]), s, schedule[k])
  {
    if schedule == [] {
    } else {
      var n := |schedule| - 1;
      EofIsDecidedOnce(c, schedule[..n], s);
      MoveDecidesEof(Execute(c, schedule[..n]), s, schedule[n]);
      assert Execute(c, schedule) == Apply(Execute(c, schedule[..n]), schedule[n]);
      hide Execute, Apply, DecidesEof, OnTheWayToComplete;
      LastOrEarlier(c, schedule, s);
    }
  }

  lemma LastOrEarlier(c: Config, schedule: seq<Label>, s: Stream)
    requires schedule != []
    ensures var n := |schedule| - 1;
      (exists k :: 0 <= k < |schedule| && DecidesEof(Execute(c, schedule[..k]), s, schedule[k]))
      <==> (exists k :: 0 <= k < n && DecidesEof(Execute(c, schedule[..n][..k]), s, schedule[..n][k]))
           || DecidesEof(Execute(c, schedule[..n]), s, schedule[n])
  {
    hide Execute, DecidesEof;
    var n := |schedule| - 1;
    assert forall k :: 0 <= k < n ==> schedule[..n][..k] == schedule[..k] && schedule[..n][k] == schedule[k];
  }

  /** A stopped reader's stream is complete exactly if, at some step of its own, the
      wait reported end of file or the budget was still running when the reader
      asked after reading nothing.  So an end of file that was seen is lost exactly
      when the question was answered by a halt. */
  lemma CompleteExactly(c: Config, schedule: seq<Label>, s: Stream)
    requires Execute(c, schedule).Finished(s)
    ensures Execute(c, schedule).ledger.Get(s).complete
            <==> exists k :: 0 <= k < |schedule| && DecidesEof(Execute(c, schedule[..k]), s, schedule[k])
  {
    EofIsDecidedOnce(c, schedule, s);
    NoFalseCompleteness(c, schedule, s);
    hide Execute, DecidesEof;
  }
}
