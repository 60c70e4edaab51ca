/** Why a run ends and which error each reason becomes
    (`src/command_runner/internal/stop_reason.rs`, `run_event.rs`). */
module StopReasons {
  import opened Basics
  import opened CommandErrors

  datatype StopReason =
    | TimedOut(timeout: Duration, status: Option<ExitStatus>)
    | Cancelled(status: Option<ExitStatus>)
    | OutputLimitExceeded(limit: nat, observed: nat, status: Option<ExitStatus>)
    | WaitFailed(source: IoError)
    | TimeFailed(clock: TimeError, status: Option<ExitStatus>)

  /** What one monitoring phase reports. */
  datatype RunEvent =
    | Exited(exit: ExitStatus)
    | TimedOut(timeout: Duration, status: Option<ExitStatus>)
    | Cancelled(status: Option<ExitStatus>)
    | OutputLimitExceeded(limit: nat, observed: nat, status: Option<ExitStatus>)
    | WaitFailed(source: IoError)
    | TimeFailed(clock: TimeError, status: Option<ExitStatus>)

  function IntoExitStatus(event: RunEvent): Result<ExitStatus, StopReason> {
    match event
    case Exited(status) => Ok(status)
    case TimedOut(timeout, status) => Err(StopReason.TimedOut(timeout, status))
    case Cancelled(status) => Err(StopReason.Cancelled(status))
    case OutputLimitExceeded(limit, observed, status) => Err(StopReason.OutputLimitExceeded(limit, observed, status))
    case WaitFailed(source) => Err(StopReason.WaitFailed(source))
    case TimeFailed(clock, status) => Err(StopReason.TimeFailed(clock, status))
  }

  /** An exit status seen before the stop began. */
  function ObservedStatus(reason: StopReason): Option<ExitStatus> {
    match reason
    case WaitFailed(_) => None
    case _ => reason.status
  }

  predicate RetainsTerminationOutput(reason: StopReason) {
    match reason
    case WaitFailed(_) => false
    case TimeFailed(_, status) => status.Some?
    case _ => true
  }

  function PrimaryReason(reason: StopReason): Reason {
    match reason
    case TimedOut(timeout, _) => Reason.TimedOut(timeout)
    case Cancelled(_) => Reason.Cancelled
    case OutputLimitExceeded(limit, observed, _) => Reason.OutputLimitExceeded(limit, observed)
    case WaitFailed(source) => Reason.WaitFailed(source)
    case TimeFailed(clock, _) => Reason.TimeFailed(clock)
  }

  /** No event is mistaken for another one, so neither its reason nor its data is lost. */
  lemma EventsStayDistinct(e: RunEvent, f: RunEvent)
    requires IntoExitStatus(e) == IntoExitStatus(f)
    ensures e == f
  {
  }

  /** The way from event to error keeps the kind, the data and the status already known. */
  lemma EventNamesItsError(e: RunEvent)
    requires !e.Exited?
    ensures var stop := IntoExitStatus(e);
      && stop.Err?
      && ObservedStatus(stop.error) == (if e.WaitFailed? then None else e.status)
      && match PrimaryReason(stop.error)
         case TimedOut(timeout) => e.TimedOut? && e.timeout == timeout
         case Cancelled => e.Cancelled?
         case OutputLimitExceeded(limit, observed) => e.OutputLimitExceeded?
           && (e.limit, e.observed) == (limit, observed)
         case WaitFailed(source) => e.WaitFailed? && e.source == source
         case TimeFailed(clock) => e.TimeFailed? && e.clock == clock
         case _ => false
  {
  }

  method IntoPrimaryError(reason: StopReason, output: Option<CommandOutput>) returns (error: CommandError)
    ensures fresh(error) && error.reason == PrimaryReason(reason) && error.output == output
    ensures error.capturedOutput == None && error.cleanupFailures == []
  {
    error := new CommandError.FromReason(PrimaryReason(reason), output);
  }

  /** The stop reason stays primary; the finalization error becomes evidence and
      gives its captured bytes. */
  method IntoErrorAfterFinalize(reason: StopReason, finalizeError: CommandError) returns (error: CommandError)
    modifies finalizeError`output, finalizeError`capturedOutput
    ensures fresh(error) && error.reason == PrimaryReason(reason)
    ensures error.cleanupFailures == SortByRank(old(finalizeError.AsCleanup()))
    ensures error.output == old(finalizeError.output)
    ensures error.Reachable() == old(finalizeError.Reachable())
  {
    error := IntoPrimaryError(reason, None);
    error.WithFinalizationError(finalizeError);
    assert [] + old(finalizeError.AsCleanup()) == old(finalizeError.AsCleanup());
  }
}
