/** The two polling loops of a running command
    (`src/command_runner/internal/running_command.rs`, `wait_policy.rs`).

    A script lists what the child, the helpers, the cancellation token, the clock
    and the timer would answer at each poll; the budget is read as it is then, while
    the readers go on.  The loops are proved to report the first poll at which
    anything happened, with a fixed priority among the things that happened then. */
module Monitoring {
  import opened Basics
  import opened StopReasons
  import opened OutputBudget

  const CANCELLATION_POLL_INTERVAL: Duration := 10 * MILLISECOND

  const ADAPTIVE_POLL_INTERVALS: seq<Duration> :=
    [MILLISECOND, 2 * MILLISECOND, 4 * MILLISECOND, 8 * MILLISECOND, 10 * MILLISECOND]

  function NextPollInterval(pollCount: nat): Duration {
    ADAPTIVE_POLL_INTERVALS[Min(pollCount, |ADAPTIVE_POLL_INTERVALS| - 1)]
  }

  function NextSleep(timeout: Duration, elapsed: Duration, pollCount: nat): Duration {
    Min(SaturatingSub(timeout, elapsed), NextPollInterval(pollCount))
  }

  /** What a run is watched for. */
  datatype Watch = Watch(timeout: Option<Duration>, cancellable: bool, budgeted: bool) {
    predicate Polls() {
      timeout.Some? || cancellable || budgeted
    }
  }

  /** `elapsed` is measured from the start of the child in both phases. */
  datatype Poll = Poll(exceeded: Option<(nat, nat)>, child: Result<Option<ExitStatus>, IoError>, helpersFinished: bool,
                       cancelled: bool, elapsed: Result<Duration, TimeError>, slept: Result<(), TimeError>)

  datatype Phase = BeforeExit | AfterExit(status: ExitStatus)

  // ---------------------------------------------------------------------
  // What should be reported

  datatype Condition =
    | OverBudget | WaitError | ChildExited | HelpersDone | CancelRequested | ClockError | Expired | SleepError

  predicate Holds(w: Watch, phase: Phase, p: Poll, c: Condition) {
    match c
    case OverBudget => w.budgeted && p.exceeded.Some?
    case WaitError => phase.BeforeExit? && p.child.Err?
    case ChildExited => phase.BeforeExit? && p.child.Ok? && p.child.value.Some?
    case HelpersDone => phase.AfterExit? && p.helpersFinished
    case CancelRequested => w.cancellable && p.cancelled
    case ClockError => w.timeout.Some? && p.elapsed.Err?
    case Expired => w.timeout.Some? && p.elapsed.Ok? && p.elapsed.value >= w.timeout.value
    case SleepError => p.slept.Err?
  }

  function Priority(c: Condition): nat {
    match c
    case OverBudget => 0
    case WaitError => 1
    case ChildExited | HelpersDone => 2
    case CancelRequested => 3
    case ClockError => 4
    case Expired => 5
    case SleepError => 6
  }

  /** The exit status known when `p` is taken. */
  function KnownStatus(phase: Phase, p: Poll): Option<ExitStatus> {
    match phase
    case AfterExit(status) => Some(status)
    case BeforeExit => if p.child.Ok? then p.child.value else None
  }

  /** The event a condition stands for; a stop carries the exit status already known. */
  function EventOf(w: Watch, phase: Phase, p: Poll, c: Condition): RunEvent
    requires Holds(w, phase, p, c)
  {
    match c
    case OverBudget =>
      RunEvent.OutputLimitExceeded(p.exceeded.value.0, p.exceeded.value.1, KnownStatus(phase, p))
    case WaitError => RunEvent.WaitFailed(p.child.error)
    case ChildExited => Exited(p.child.value.value)
    case HelpersDone => Exited(phase.status)
    case CancelRequested => RunEvent.Cancelled(Earlier(phase))
    case ClockError => RunEvent.TimeFailed(p.elapsed.error, Earlier(phase))
    case Expired => RunEvent.TimedOut(w.timeout.value, Earlier(phase))
    case SleepError => RunEvent.TimeFailed(p.slept.error, Earlier(phase))
  }

  function Earlier(phase: Phase): Option<ExitStatus> {
    if phase.AfterExit? then Some(phase.status) else None
  }

  predicate Quiet(w: Watch, phase: Phase, p: Poll) {
    forall c: Condition :: !Holds(w, phase, p, c)
  }

  /** The event of poll `k` is the first one: everything before was quiet, and no
      condition of smaller priority number holds at `k`. */
  ghost predicate DecidedAt(w: Watch, phase: Phase, script: seq<Poll>, k: nat, c: Condition, event: RunEvent) {
    && k < |script|
    && Holds(w, phase, script[k], c)
    && (forall d: Condition :: Holds(w, phase, script[k], d) ==> Priority(c) <= Priority(d))
    && (forall i :: 0 <= i < k ==> Quiet(w, phase, script[i]))
    && event == EventOf(w, phase, script[k], c)
  }

  /** Monitoring `script` reports `event`, or nothing when every poll was quiet. */
  ghost predicate Reports(w: Watch, phase: Phase, script: seq<Poll>, event: Option<RunEvent>) {
    match event
    case None => forall i :: 0 <= i < |script| ==> Quiet(w, phase, script[i])
    case Some(e) => exists k: nat, c: Condition :: DecidedAt(w, phase, script, k, c, e)
  }

  /** A script leaves no choice of event. */
  lemma ReportIsUnique(w: Watch, phase: Phase, script: seq<Poll>, e: Option<RunEvent>, f: Option<RunEvent>)
    requires Reports(w, phase, script, e) && Reports(w, phase, script, f)
    ensures e == f
  {
    if e.Some? && f.Some? {
      var k: nat, c :| DecidedAt(w, phase, script, k, c, e.value);
      var m: nat, d :| DecidedAt(w, phase, script, m, d, f.value);
      SameCondition(w, phase, script, k, c, e.value, m, d, f.value);
    }
  }

  /** What an event says about the poll that decided it: the kind names what was met,
      with its data, and nothing more urgent was met at the same poll. */
  predicate Meets(w: Watch, phase: Phase, p: Poll, event: RunEvent) {
    var overrun := w.budgeted && p.exceeded.Some?;
    var running := phase.BeforeExit? ==> p.child == Ok(None);
    var waiting := !overrun && running && (phase.AfterExit? ==> !p.helpersFinished);
    var known := if phase.AfterExit? then Some(phase.status) else None;
    match event
    case OutputLimitExceeded(limit, observed, status) =>
      && w.budgeted && p.exceeded == Some((limit, observed))
      && status == if phase.AfterExit? then Some(phase.status) else if p.child.Ok? then p.child.value else None
    case WaitFailed(source) => !overrun && phase.BeforeExit? && p.child == Err(source)
    case Exited(status) =>
      && !overrun
      && if phase.BeforeExit? then p.child == Ok(Some(status)) else p.helpersFinished && status == phase.status
    case Cancelled(status) => waiting && w.cancellable && p.cancelled && status == known
    case TimedOut(timeout, status) =>
      && waiting && !(w.cancellable && p.cancelled)
      && w.timeout == Some(timeout) && p.elapsed.Ok? && p.elapsed.value >= timeout && status == known
    case TimeFailed(clock, status) =>
      && waiting && !(w.cancellable && p.cancelled) && status == known
      && (w.timeout.Some? && p.elapsed.Err? ==> p.elapsed == Err(clock))
      && (w.timeout.None? || p.elapsed.Ok? ==>
            p.slept == Err(clock) && (w.timeout.Some? ==> p.elapsed.value < w.timeout.value))
  }

  /** A reported event is exactly what the first poll met at which anything happened;
      a phase that reports nothing met nothing at any poll. */
  lemma EventTellsPoll(w: Watch, phase: Phase, script: seq<Poll>, event: Option<RunEvent>)
    requires Reports(w, phase, script, event)
    ensures match event
      case Some(e) => exists k :: 0 <= k < |script| && Meets(w, phase, script[k], e)
                        && forall i :: 0 <= i < k ==> forall f :: !Meets(w, phase, script[i], f)
      case None => forall i :: 0 <= i < |script| ==> forall f :: !Meets(w, phase, script[i], f)
  {
    if event.Some? {
      var k: nat, c :| DecidedAt(w, phase, script, k, c, event.value);
      DecidedMeets(w, phase, script[k], c, event.value);
      forall i | 0 <= i < k ensures forall f :: !Meets(w, phase, script[i], f) {
        QuietMeetsNothing(w, phase, script[i]);
      }
      assert Meets(w, phase, script[k], event.value);
    } else {
      forall i | 0 <= i < |script| ensures forall f :: !Meets(w, phase, script[i], f) {
        QuietMeetsNothing(w, phase, script[i]);
      }
    }
  }

  lemma DecidedMeets(w: Watch, phase: Phase, p: Poll, c: Condition, event: RunEvent)
    requires Holds(w, phase, p, c) && event == EventOf(w, phase, p, c)
    requires forall d: Condition :: Holds(w, phase, p, d) ==> Priority(c) <= Priority(d)
    ensures Meets(w, phase, p, event)
  {
    assert Holds(w, phase, p, OverBudget) ==> Priority(c) <= 0;
    assert Holds(w, phase, p, WaitError) ==> Priority(c) <= 1;
    assert Holds(w, phase, p, ChildExited) ==> Priority(c) <= 2;
    assert Holds(w, phase, p, HelpersDone) ==> Priority(c) <= 2;
    assert Holds(w, phase, p, CancelRequested) ==> Priority(c) <= 3;
    assert Holds(w, phase, p, ClockError) ==> Priority(c) <= 4;
    assert Holds(w, phase, p, Expired) ==> Priority(c) <= 5;
  }

  lemma QuietMeetsNothing(w: Watch, phase: Phase, p: Poll)
    requires Quiet(w, phase, p)
    ensures forall event :: !Meets(w, phase, p, event)
  {
    assert forall c: Condition :: !Holds(w, phase, p, c);
    assert !Holds(w, phase, p, OverBudget) && !Holds(w, phase, p, WaitError) && !Holds(w, phase, p, ChildExited);
    assert !Holds(w, phase, p, HelpersDone) && !Holds(w, phase, p, CancelRequested);
    assert !Holds(w, phase, p, ClockError) && !Holds(w, phase, p, Expired) && !Holds(w, phase, p, SleepError);
  }

  lemma SameCondition(w: Watch, phase: Phase, script: seq<Poll>, k: nat, c: Condition, e: RunEvent,
                      m: nat, d: Condition, f: RunEvent)
    requires DecidedAt(w, phase, script, k, c, e) && DecidedAt(w, phase, script, m, d, f)
    ensures k == m && c == d && e == f
  {
    assert k < m ==> Quiet(w, phase, script[k]);
    assert m < k ==> Quiet(w, phase, script[m]);
    assert Priority(c) == Priority(d);
  }

  // ---------------------------------------------------------------------
  // The loops

  /** The part both loops share; `sleep` is how long the timer was asked to wait. */
  method CheckCancellationAndWait(w: Watch, phase: Phase, p: Poll, pollCount: nat)
    returns (event: Option<RunEvent>, count: nat, sleep: Duration)
    requires !Holds(w, phase, p, OverBudget) && !Holds(w, phase, p, WaitError)
    requires !Holds(w, phase, p, ChildExited) && !Holds(w, phase, p, HelpersDone)
    ensures event.None? ==> Quiet(w, phase, p) && count == (if w.timeout.Some? then pollCount + 1 else pollCount)
    ensures event.None? ==> sleep == SleepAt(w, p, pollCount)
    ensures event.Some? ==> exists c :: DecidedAt(w, phase, [p], 0, c, event.value)
  {
    var status := if phase.AfterExit? then Some(phase.status) else None;
    count, sleep := pollCount, CANCELLATION_POLL_INTERVAL;
    if w.cancellable && p.cancelled {
      assert DecidedAt(w, phase, [p], 0, CancelRequested, RunEvent.Cancelled(status));
      return Some(RunEvent.Cancelled(status)), count, sleep;
    }
    match w.timeout {
      case Some(timeout) =>
        match p.elapsed {
          case Err(source) =>
            assert DecidedAt(w, phase, [p], 0, ClockError, RunEvent.TimeFailed(source, status));
            return Some(RunEvent.TimeFailed(source, status)), count, sleep;
          case Ok(elapsed) =>
            if elapsed >= timeout {
              assert DecidedAt(w, phase, [p], 0, Expired, RunEvent.TimedOut(timeout, status));
              return Some(RunEvent.TimedOut(timeout, status)), count, sleep;
            }
            sleep := NextSleep(timeout, elapsed, pollCount);
            count := pollCount + 1;
        }
      case None =>
    }
    if p.slept.Err? {
      assert DecidedAt(w, phase, [p], 0, SleepError, RunEvent.TimeFailed(p.slept.error, status));
      return Some(RunEvent.TimeFailed(p.slept.error, status)), count, sleep;
    }
    event := None;
  }

  lemma Lift(w: Watch, phase: Phase, script: seq<Poll>, k: nat, c: Condition, event: RunEvent)
    requires k < |script| && DecidedAt(w, phase, [script[k]], 0, c, event)
    requires forall i :: 0 <= i < k ==> Quiet(w, phase, script[i])
    ensures DecidedAt(w, phase, script, k, c, event)
  {
  }

  /** How long the sleep after a quiet poll lasts. */
  function SleepAt(w: Watch, p: Poll, pollCount: nat): Duration {
    if w.timeout.Some? && p.elapsed.Ok? then NextSleep(w.timeout.value, p.elapsed.value, pollCount)
    else CANCELLATION_POLL_INTERVAL
  }

  /** What was polled: the script, with the budget's own answers in their places. */
  ghost predicate Polled(script: seq<Poll>, polls: seq<Poll>, event: Option<RunEvent>) {
    && |polls| <= |script| && (event.None? ==> |polls| == |script|)
    && forall i :: 0 <= i < |polls| ==> polls[i] == script[i].(exceeded := polls[i].exceeded)
  }

  /** Every quiet poll was followed by the sleep the policy asks for. */
  ghost predicate Slept(w: Watch, phase: Phase, polls: seq<Poll>, sleeps: seq<Duration>) {
    && |sleeps| <= |polls|
    && forall i :: 0 <= i < |sleeps| ==> sleeps[i] == SleepAt(w, polls[i], i) && Quiet(w, phase, polls[i])
  }

  lemma NoSleepYet(w: Watch, phase: Phase)
    ensures Slept(w, phase, [], [])
  {
  }

  /** A quiet poll and its sleep extend the record; so does a poll that has no sleep yet. */
  lemma SleepsOn(w: Watch, phase: Phase, polls: seq<Poll>, sleeps: seq<Duration>, p: Poll, pollCount: nat)
    requires Slept(w, phase, polls, sleeps) && |sleeps| == |polls|
    requires w.timeout.Some? ==> pollCount == |polls|
    ensures Slept(w, phase, polls + [p], sleeps)
    ensures Quiet(w, phase, p) ==> Slept(w, phase, polls + [p], sleeps + [SleepAt(w, p, pollCount)])
    ensures forall i :: 0 <= i < |polls| ==> Quiet(w, phase, (polls + [p])[i])
  {
    hide Quiet;
  }

  lemma SleptEverywhere(w: Watch, phase: Phase, polls: seq<Poll>, sleeps: seq<Duration>)
    requires Slept(w, phase, polls, sleeps) && |sleeps| == |polls|
    ensures Reports(w, phase, polls, None)
  {
    hide Quiet;
  }

  /** An event that blames the budget quotes it, and an exit after which the budget
      was read finds it not exceeded. */
  ghost predicate BudgetAgrees(budget: TotalOutputBudget?, phase: Phase, event: Option<RunEvent>)
    reads budget
  {
    && (event.Some? && event.value.OutputLimitExceeded? ==>
          budget != null
          && Exceeded(budget.limits, budget.State()) == Some((event.value.limit, event.value.observed)))
    && (event.Some? && event.value.Exited? && phase.AfterExit? && budget != null ==> !budget.exceeded)
  }

  /** Reads the budget while the readers go on. */
  method ReadBudget(budget: TotalOutputBudget?) returns (exceeded: Option<(nat, nat)>)
    modifies budget
    ensures MovesOn(budget, old(LedgerOf(budget)), LedgerOf(budget), true, true)
    ensures exceeded == if budget == null then None else Exceeded(budget.limits, budget.State())
  {
    RunReaders(budget, true, true);
    exceeded := None;
    if budget != null {
      exceeded := budget.IsExceeded();
    }
  }

  /** `reaped` answers the blocking wait that replaces polling when nothing is
      watched; `None` means that the script ended while still monitoring. */
  method WaitForEvent(w: Watch, reaped: Result<ExitStatus, IoError>, script: seq<Poll>, budget: TotalOutputBudget?)
    returns (event: Option<RunEvent>, polls: seq<Poll>, sleeps: seq<Duration>)
    requires w.budgeted <==> budget != null
    modifies budget
    ensures MovesOn(budget, old(LedgerOf(budget)), LedgerOf(budget), true, true)
    ensures BudgetAgrees(budget, BeforeExit, event)
    ensures !w.Polls() ==> event == Some(if reaped.Ok? then Exited(reaped.value) else RunEvent.WaitFailed(reaped.error))
    ensures w.Polls() ==> Polled(script, polls, event) && Reports(w, BeforeExit, polls, event)
    ensures Slept(w, BeforeExit, polls, sleeps) && (w.Polls() && event.None? ==> |sleeps| == |polls|)
  {
    hide MovesOn, SleepAt, Slept;
    StaysPut(budget, LedgerOf(budget));
    sleeps, polls := [], [];
    NoSleepYet(w, BeforeExit);
    if !w.Polls() {
      match reaped {
        case Ok(status) => event := Some(Exited(status));
        case Err(source) => event := Some(RunEvent.WaitFailed(source));
      }
      return;
    }
    var pollCount, k := 0, 0;
    while k < |script|
      invariant MovesOn(budget, old(LedgerOf(budget)), LedgerOf(budget), true, true)
      invariant k == |sleeps| == |polls| <= |script|
      invariant w.timeout.Some? ==> pollCount == k
      invariant Slept(w, BeforeExit, polls, sleeps)
      invariant forall i :: 0 <= i < k ==> polls[i] == script[i].(exceeded := polls[i].exceeded)
    {
      ghost var before := LedgerOf(budget);
      var exceeded := ReadBudget(budget);
      MovesOnChain(budget, old(LedgerOf(budget)), before, LedgerOf(budget));
      var p := script[k].(exceeded := exceeded);
      SleepsOn(w, BeforeExit, polls, sleeps, p, pollCount);
      polls := polls + [p];
      if exceeded.Some? {
        var status := if p.child.Ok? then p.child.value else None;
        event := Some(RunEvent.OutputLimitExceeded(exceeded.value.0, exceeded.value.1, status));
        assert DecidedAt(w, BeforeExit, polls, k, OverBudget, event.value);
        return;
      }
      match p.child {
        case Err(source) =>
          event := Some(RunEvent.WaitFailed(source));
          assert DecidedAt(w, BeforeExit, polls, k, WaitError, event.value);
          return;
        case Ok(Some(status)) =>
          event := Some(Exited(status));
          assert DecidedAt(w, BeforeExit, polls, k, ChildExited, event.value);
          return;
        case Ok(None) =>
      }
      var sleep;
      event, pollCount, sleep := CheckCancellationAndWait(w, BeforeExit, p, pollCount);
      if event.Some? {
        ghost var c :| DecidedAt(w, BeforeExit, [p], 0, c, event.value);
        Lift(w, BeforeExit, polls, k, c, event.value);
        return;
      }
      sleeps := sleeps + [sleep];
      k := k + 1;
    }
    SleptEverywhere(w, BeforeExit, polls, sleeps);
    event := None;
  }

  /** After the exit: wait for the helpers, then read the budget once more. */
  method WaitForIoEvent(w: Watch, status: ExitStatus, script: seq<Poll>, budget: TotalOutputBudget?)
    returns (event: Option<RunEvent>, polls: seq<Poll>, sleeps: seq<Duration>)
    requires w.budgeted <==> budget != null
    modifies budget
    ensures MovesOn(budget, old(LedgerOf(budget)), LedgerOf(budget), true, true)
    ensures BudgetAgrees(budget, AfterExit(status), event)
    ensures !w.Polls() ==> event == Some(Exited(status))
    ensures w.Polls() ==> Polled(script, polls, event) && Reports(w, AfterExit(status), polls, event)
    ensures Slept(w, AfterExit(status), polls, sleeps) && (w.Polls() && event.None? ==> |sleeps| == |polls|)
  {
    hide MovesOn, SleepAt, Slept;
    StaysPut(budget, LedgerOf(budget));
    ghost var phase := AfterExit(status);
    sleeps, polls := [], [];
    NoSleepYet(w, phase);
    if !w.Polls() {
      return Some(Exited(status)), polls, sleeps;
    }
    var pollCount, k := 0, 0;
    while k < |script| && !script[k].helpersFinished
      invariant MovesOn(budget, old(LedgerOf(budget)), LedgerOf(budget), true, true)
      invariant k == |sleeps| == |polls| <= |script|
      invariant w.timeout.Some? ==> pollCount == k
      invariant Slept(w, phase, polls, sleeps)
      invariant forall i :: 0 <= i < k ==> polls[i] == script[i].(exceeded := polls[i].exceeded)
    {
      ghost var before := LedgerOf(budget);
      var exceeded := ReadBudget(budget);
      MovesOnChain(budget, old(LedgerOf(budget)), before, LedgerOf(budget));
      var p := script[k].(exceeded := exceeded);
      SleepsOn(w, phase, polls, sleeps, p, pollCount);
      polls := polls + [p];
      if exceeded.Some? {
        event := Some(RunEvent.OutputLimitExceeded(exceeded.value.0, exceeded.value.1, Some(status)));
        assert DecidedAt(w, phase, polls, k, OverBudget, event.value);
        return;
      }
      var sleep;
      event, pollCount, sleep := CheckCancellationAndWait(w, AfterExit(status), p, pollCount);
      if event.Some? {
        ghost var c :| DecidedAt(w, phase, [p], 0, c, event.value);
        Lift(w, phase, polls, k, c, event.value);
        return;
      }
      sleeps := sleeps + [sleep];
      k := k + 1;
    }
    if k == |script| {
      SleptEverywhere(w, phase, polls, sleeps);
      return None, polls, sleeps;
    }
    ghost var before := LedgerOf(budget);
    var exceeded := ReadBudget(budget);
    MovesOnChain(budget, old(LedgerOf(budget)), before, LedgerOf(budget));
    SleepsOn(w, phase, polls, sleeps, script[k].(exceeded := exceeded), pollCount);
    polls := polls + [script[k].(exceeded := exceeded)];
    if exceeded.Some? {
      event := Some(RunEvent.OutputLimitExceeded(exceeded.value.0, exceeded.value.1, Some(status)));
      assert DecidedAt(w, phase, polls, k, OverBudget, event.value);
    } else {
      event := Some(Exited(status));
      assert DecidedAt(w, phase, polls, k, HelpersDone, event.value);
    }
  }

  /** No wait failure follows an observed exit, so none ever carries its status. */
  lemma NoWaitFailureAfterExit(w: Watch, status: ExitStatus, script: seq<Poll>, event: RunEvent)
    requires Reports(w, AfterExit(status), script, Some(event))
    ensures !event.WaitFailed?
    ensures IntoExitStatus(event).Err? ==> ObservedStatus(IntoExitStatus(event).error) == Some(status)
  {
    var k: nat, c :| DecidedAt(w, AfterExit(status), script, k, c, event);
  }

  // ---------------------------------------------------------------------
  // How long the loops can run

  /** The clock moves at least as far as each sleep. */
  ghost predicate ClockAdvances(w: Watch, script: seq<Poll>) {
    forall i :: 0 <= i < |script| - 1 && script[i].elapsed.Ok? && script[i + 1].elapsed.Ok? ==>
      script[i + 1].elapsed.value >= script[i].elapsed.value + SleepAt(w, script[i], i)
  }

  ghost predicate AllQuiet(w: Watch, phase: Phase, script: seq<Poll>) {
    forall i :: 0 <= i < |script| ==> Quiet(w, phase, script[i])
  }

  lemma QuietBeforeDeadline(w: Watch, phase: Phase, p: Poll)
    requires Quiet(w, phase, p) && w.timeout.Some?
    ensures p.elapsed.Ok? && p.elapsed.value < w.timeout.value
  {
    assert !Holds(w, phase, p, ClockError) && !Holds(w, phase, p, Expired);
  }

  /** Before the deadline no sleep is empty and none reaches past it, whatever the
      timer answers. */
  lemma SleepStaysWithinDeadline(w: Watch, p: Poll, pollCount: nat)
    requires w.timeout.Some? && p.elapsed.Ok? && p.elapsed.value < w.timeout.value
    ensures 0 < SleepAt(w, p, pollCount) <= CANCELLATION_POLL_INTERVAL
    ensures p.elapsed.value + SleepAt(w, p, pollCount) <= w.timeout.value
  {
    IntervalIsBounded(pollCount);
    hide NextPollInterval;
  }

  lemma IntervalIsBounded(pollCount: nat)
    ensures MILLISECOND <= NextPollInterval(pollCount) <= CANCELLATION_POLL_INTERVAL
  {
  }

  /** After `n` quiet polls the clock has moved by at least the first `n` delays. */
  lemma {:induction false} ElapsedAfter(w: Watch, phase: Phase, script: seq<Poll>, n: nat)
    requires w.timeout.Some? && n < |script|
    requires AllQuiet(w, phase, script) && ClockAdvances(w, script)
    ensures script[0].elapsed.Ok? && script[n].elapsed.Ok?
    ensures script[n].elapsed.value >= script[0].elapsed.value + TotalDelay(n)
  {
    QuietBeforeDeadline(w, phase, script[n]);
    if n == 0 {
    } else {
      ElapsedAfter(w, phase, script, n - 1);
      assert script[n].elapsed.value >= script[n - 1].elapsed.value + SleepAt(w, script[n - 1], n - 1);
    }
  }

  function TotalDelay(n: nat): Duration {
    if n == 0 then 0 else TotalDelay(n - 1) + NextPollInterval(n - 1)
  }

  /** The delay starts at one millisecond and doubles until it reaches ten. */
  lemma DelayDoubles(n: nat)
    ensures NextPollInterval(0) == MILLISECOND
    ensures NextPollInterval(n + 1) == Min(2 * NextPollInterval(n), 10 * MILLISECOND)
  {
  }

  /** How long a sleep lasts: ten milliseconds when nothing has a deadline, otherwise
      the adaptive delay, cut at the deadline. */
  lemma SleepFollowsPolicy(w: Watch, p: Poll, n: nat)
    ensures w.timeout.None? ==> SleepAt(w, p, n) == 10 * MILLISECOND
    ensures w.timeout.Some? && p.elapsed.Ok? && p.elapsed.value <= w.timeout.value ==>
      SleepAt(w, p, n) == Min(w.timeout.value - p.elapsed.value, NextPollInterval(n))
  {
  }

  /** The first `n` adaptive delays last at least 10 n - 25 milliseconds. */
  lemma {:induction false} TotalDelayGrows(n: nat)
    ensures TotalDelay(n) + 25 * MILLISECOND >= n * 10 * MILLISECOND
    ensures n >= 4 ==> TotalDelay(n) + 25 * MILLISECOND == n * 10 * MILLISECOND
  {
    if n > 4 {
      TotalDelayGrows(n - 1);
    } else {
      assert TotalDelay(1) == MILLISECOND && TotalDelay(2) == 3 * MILLISECOND;
      assert TotalDelay(3) == 7 * MILLISECOND && TotalDelay(4) == 15 * MILLISECOND;
    }
  }

  /** With such a clock, a phase that starts `script[0].elapsed` after the start of
      the child sleeps so often only that 10 (k - 1) milliseconds stay below the
      remaining time plus 25 milliseconds. */
  lemma PollingIsBounded(w: Watch, phase: Phase, script: seq<Poll>)
    requires w.timeout.Some? && script != []
    requires AllQuiet(w, phase, script) && ClockAdvances(w, script)
    ensures script[0].elapsed.Ok? && script[0].elapsed.value < w.timeout.value
    ensures (|script| - 1) * 10 * MILLISECOND < w.timeout.value - script[0].elapsed.value + 25 * MILLISECOND
  {
    QuietBeforeDeadline(w, phase, script[0]);
    QuietBeforeDeadline(w, phase, script[|script| - 1]);
    ElapsedAfter(w, phase, script, |script| - 1);
    TotalDelayGrows(|script| - 1);
  }

  /** So a watched deadline always ends a phase. */
  lemma DeadlineEndsPhase(w: Watch, phase: Phase, script: seq<Poll>, event: Option<RunEvent>)
    requires w.timeout.Some? && Reports(w, phase, script, event) && ClockAdvances(w, script)
    requires (|script| - 1) * 10 * MILLISECOND >= w.timeout.value + 25 * MILLISECOND
    ensures event.Some?
  {
    if event.None? {
      PollingIsBounded(w, phase, script);
    }
  }

  // Both phases on one clock

  function TotalSlept(sleeps: seq<Duration>): Duration {
    if sleeps == [] then 0 else TotalSlept(sleeps[..|sleeps| - 1]) + sleeps[|sleeps| - 1]
  }

  /** The same clock, started with the child, runs through both phases: it advances
      over every sleep that was made, also over the last one of the first phase. */
  ghost predicate OneClock(w: Watch, early: seq<Poll>, earlySleeps: seq<Duration>, late: seq<Poll>,
                           lateSleeps: seq<Duration>)
    requires |earlySleeps| <= |early| && |lateSleeps| <= |late|
  {
    var k := |earlySleeps|;
    && ClockAdvances(w, early[..k])
    && ClockAdvances(w, late[..|lateSleeps|])
    && (k > 0 && lateSleeps != [] && early[k - 1].elapsed.Ok? && late[0].elapsed.Ok? ==>
          late[0].elapsed.value >= early[k - 1].elapsed.value + earlySleeps[k - 1])
  }

  lemma {:induction false} SleptSoFar(w: Watch, phase: Phase, polls: seq<Poll>, sleeps: seq<Duration>, n: nat)
    requires w.timeout.Some? && Slept(w, phase, polls, sleeps) && 0 < n <= |sleeps|
    requires ClockAdvances(w, polls[..|sleeps|])
    ensures polls[0].elapsed.Ok? && polls[n - 1].elapsed.Ok?
    ensures polls[0].elapsed.value + TotalSlept(sleeps[..n]) <= polls[n - 1].elapsed.value + sleeps[n - 1]
      <= w.timeout.value
  {
    hide SleepAt, Quiet;
    QuietBeforeDeadline(w, phase, polls[n - 1]);
    SleepStaysWithinDeadline(w, polls[n - 1], n - 1);
    assert sleeps[..n][..n - 1] == sleeps[..n - 1];
    if n == 1 {
    } else {
      SleptSoFar(w, phase, polls, sleeps, n - 1);
      var slept := polls[..|sleeps|];
      assert slept[n - 2] == polls[n - 2] && slept[n - 2 + 1] == polls[n - 1];
    }
  }

  /** What one phase with some sleeps takes: the clock passes all its delays, and the
      sleeps fit between its first poll and the deadline. */
  lemma PhaseFits(w: Watch, phase: Phase, polls: seq<Poll>, sleeps: seq<Duration>)
    requires w.timeout.Some? && Slept(w, phase, polls, sleeps) && sleeps != []
    requires ClockAdvances(w, polls[..|sleeps|])
    ensures var last := polls[|sleeps| - 1];
      && polls[0].elapsed.Ok? && last.elapsed.Ok?
      && polls[0].elapsed.value + TotalDelay(|sleeps| - 1) <= last.elapsed.value < w.timeout.value
      && polls[0].elapsed.value + TotalSlept(sleeps) <= last.elapsed.value + sleeps[|sleeps| - 1] <= w.timeout.value
  {
    var slept := polls[..|sleeps|];
    hide SleepAt;
    ElapsedAfter(w, phase, slept, |sleeps| - 1);
    QuietBeforeDeadline(w, phase, slept[|sleeps| - 1]);
    SleptSoFar(w, phase, polls, sleeps, |sleeps|);
    assert sleeps[..|sleeps|] == sleeps;
  }

  /** The deadline is one for both phases: all their sleeps together last no longer
      than the timeout, and are so few that 10 (k - 2) milliseconds stay below the
      timeout plus 50 milliseconds. */
  lemma PhasesShareDeadline(w: Watch, early: seq<Poll>, earlySleeps: seq<Duration>, status: ExitStatus,
                            late: seq<Poll>, lateSleeps: seq<Duration>)
    requires w.timeout.Some?
    requires Slept(w, BeforeExit, early, earlySleeps) && Slept(w, AfterExit(status), late, lateSleeps)
    requires OneClock(w, early, earlySleeps, late, lateSleeps)
    ensures TotalSlept(earlySleeps) + TotalSlept(lateSleeps) <= w.timeout.value
    ensures (|earlySleeps| + |lateSleeps| - 2) * 10 * MILLISECOND < w.timeout.value + 50 * MILLISECOND
  {
    hide Quiet, SleepAt, ClockAdvances, TotalDelay;
    if earlySleeps != [] {
      PhaseFits(w, BeforeExit, early, earlySleeps);
      TotalDelayGrows(|earlySleeps| - 1);
    }
    if lateSleeps != [] {
      PhaseFits(w, AfterExit(status), late, lateSleeps);
      TotalDelayGrows(|lateSleeps| - 1);
    }
  }
}
