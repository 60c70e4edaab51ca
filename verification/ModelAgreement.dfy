/** The run machine and the sequential methods describe the same stop: same plan,
    same captures, and readers that move the budget no further than assumed. */
module ModelAgreement {
  import opened Basics
  import opened StopReasons
  import opened OutputBudget
  import opened OutputCollector
  import opened OutputReaders
  import opened ProcessTermination
  import opened HelperShutdown
  import opened CommandIo
  import opened Finalization
  import opened RunMachine

  /** A step of a reader in the run machine is one of those that the methods let
      readers perform meanwhile; a reader that has stopped moves nothing. */
  lemma ReaderMovesAdvance(st: RunState, s: Stream, e: Event)
    requires StateOk(st)
    ensures Advances(st.config.limits, st.ledger, StepReader(st, s, e).ledger, s.Stdout?, s.Stderr?)
    ensures st.Finished(s) ==> StepReader(st, s, e).ledger == st.ledger
  {
    if Allowed(st, s, e) {
      ReaderKeepsOwnLane(st, s, e);
      StepMarks(st.config.OptionsOf(s), st.MachineOf(s), e);
      hide Step, MachineOk, EndOk, PcOk, Balanced;
    }
  }

  lemma StepMarks(o: Options, m: Machine, e: Event)
    requires m.account.Budget?
    ensures var m' := Step(o, m, e);
      && m'.account.Budget? && m'.account.stream == m.account.stream
      && (m.account.ledger.Get(m.account.stream).complete ==> m'.account.ledger.Get(m.account.stream).complete)
  {
    StepKeepsMode(o, m, e);
    hide Report, KeepBytes, Drops;
  }

  /** The machine's labels for one stop, read as the stop's own outcomes. */
  predicate SameStop(cause: Cause, choice: Choice, reason: StopReason, termination: Termination) {
    && (cause.OverLimit? <==> reason.OutputLimitExceeded?)
    && (choice.TerminationFailed? <==> termination.NotTerminated?)
    && (choice.OutputDiscarded? <==> termination.Terminated? && !RetainsTerminationOutput(reason))
  }

  /** The machine plans to collect exactly when the method collects; otherwise both
      end in the same capture, or in none. */
  lemma PlansAgree(st: RunState, cause: Cause, choice: Choice, reason: StopReason, termination: Termination,
                   elapsed: Result<Duration, TimeError>, ends: HelperEnds, exit: Option<Ledger>)
    requires SameStop(cause, choice, reason, termination)
    ensures var plan := PlanFor(st, cause, choice);
      && (plan.FromHelpers? <==> Collects(reason, termination))
      && (!plan.FromHelpers? ==>
            FinalCapture(reason, elapsed, termination, ends, Some(st.ledger), exit)
            == if plan.FromSnapshot? then Some(plan.snapshot) else None)
  {
  }

  /** What the machine collects from two ended readers is the method's final capture. */
  lemma CapturesAgree(st: RunState, cause: Cause, choice: Choice, reason: StopReason, termination: Termination,
                      elapsed: Result<Duration, TimeError>, ends: HelperEnds, shot: Option<Ledger>)
    requires Collects(reason, termination) && (cause.OverLimit? <==> reason.OutputLimitExceeded?)
    requires st.stdout.end.Some? && st.stderr.end.Some?
    requires ends.out.end == st.stdout.end && ends.err.end == st.stderr.end
    requires choice.ClockOrStdinFailed? <==> elapsed.Err? || WriterResult(ends.inp.end).Some?
    ensures FinalCapture(reason, elapsed, termination, ends, shot, Some(st.ledger))
            == Some(RunMachine.Collected(st, cause, choice))
  {
    FailuresAgree(st, choice, elapsed, ends);
    hide CollectedFailures, FinalizingFails, WithJoined;
    assert Captures(ends) == Ends(st);
  }

  /** Finalizing fails in the machine exactly when there is something to report. */
  lemma FailuresAgree(st: RunState, choice: Choice, elapsed: Result<Duration, TimeError>, ends: HelperEnds)
    requires ends.out.end == st.stdout.end && ends.err.end == st.stderr.end
    requires choice.ClockOrStdinFailed? <==> elapsed.Err? || WriterResult(ends.inp.end).Some?
    ensures FinalizingFails(st, choice) <==> CollectedFailures(elapsed, ends) != []
  {
    FailedReaders(Stdout, ends.out.end);
    FailedReaders(Stderr, ends.err.end);
    hide StreamFailures, EndFailed, ReaderResult;
  }

  lemma FailedReaders(s: Stream, end: Option<HelperEnd>)
    ensures EndFailed(end) <==> StreamFailures(s, ReaderResult(end)) != []
  {
  }
}
