/** Cancelling and finishing the helper threads with one shared confirmation
    deadline (`src/command_runner/internal/command_io.rs`).

    `Log` records, in order, everything done to any helper, with the instants at
    which requests, sleeps and detachments happen; the contracts below are
    statements about that record.  While the runner waits, readers that are still
    alive go on using the shared budget. */
module HelperShutdown {
  import opened Basics
  import opened Clocks
  import opened OutputBudget
  import opened OutputCollector
  import opened OutputReaders

  const CONFIRMATION_TIMEOUT: Duration := 100 * MILLISECOND
  const POLL_INTERVAL: Duration := MILLISECOND

  datatype Helper = StdoutReader | StderrReader | StdinWriter

  datatype Act =
    | Cancel(h: Helper, at: Duration, error: Option<IoError>)
    | Probe(h: Helper, finished: bool)
    | Sleep(h: Helper, at: Duration, length: Duration)
    | Join(h: Helper)
    | Detach(h: Helper, at: Duration)

  /** What happened to one helper, and the cancellation failure still to be reported. */
  datatype Outcome<T> = Outcome(end: Option<T>, cancellation: Option<IoError>)

  /** Writing stdin failed with this error; a broken pipe is not a failure. */
  type StdinResult = Option<IoError>

  class StdinThread {
    const worker: Result<(), IoError>

    constructor (worker: Result<(), IoError>)
      ensures this.worker == worker
    {
      this.worker := worker;
    }
  }

  function AcceptBrokenPipe(worker: Result<(), IoError>): StdinResult {
    match worker
    case Ok(_) => None
    case Err(e) => if e.kind.BrokenPipe? then None else Some(e)
  }

  // ---------------------------------------------------------------------
  // Reading a record

  /** The requests to, and the giving up of, helper `h`, in order. */
  function Decisive(trace: seq<Act>, h: Helper): seq<Act> {
    if trace == [] then []
    else
      var last := trace[|trace| - 1];
      Decisive(trace[..|trace| - 1], h)
        + (if last.h == h && (last.Cancel? || last.Join? || last.Detach?) then [last] else [])
  }

  /** `h` was seen to have stopped. */
  predicate Confirmed(trace: seq<Act>, h: Helper) {
    Probe(h, true) in trace
  }

  predicate CancelsComeFirst(trace: seq<Act>) {
    forall i, j :: 0 <= i < j < |trace| && trace[j].Cancel? ==> trace[i].Cancel?
  }

  predicate Timed(act: Act) {
    act.Cancel? || act.Sleep? || act.Detach?
  }

  function EndOf(act: Act): Duration
    requires Timed(act)
  {
    if act.Sleep? then act.at + act.length else act.at
  }

  /** Everything happens at or after `start`, one thing after the other. */
  ghost predicate InOrderSince(trace: seq<Act>, start: Duration) {
    && (forall i :: 0 <= i < |trace| && Timed(trace[i]) ==> start <= trace[i].at)
    && (forall i, j :: 0 <= i < j < |trace| && Timed(trace[i]) && Timed(trace[j]) ==> EndOf(trace[i]) <= trace[j].at)
  }

  /** A stretch of the record made between two instants. */
  ghost predicate Timeline(trace: seq<Act>, start: Duration, end: Duration) {
    && start <= end
    && InOrderSince(trace, start)
    && (forall act :: act in trace && Timed(act) ==> EndOf(act) <= end)
  }

  /** No wait is empty and none reaches past the deadline. */
  predicate SleepsWithin(trace: seq<Act>, deadline: Duration) {
    forall act :: act in trace && act.Sleep? ==> 0 < act.length <= POLL_INTERVAL && act.at + act.length <= deadline
  }

  function TotalSleep(trace: seq<Act>): Duration {
    if trace == [] then 0
    else
      var last := trace[|trace| - 1];
      TotalSleep(trace[..|trace| - 1]) + (if last.Sleep? then last.length else 0)
  }

  lemma TimelineConcat(x: seq<Act>, y: seq<Act>, start: Duration, middle: Duration, end: Duration)
    requires Timeline(x, start, middle) && Timeline(y, middle, end)
    ensures Timeline(x + y, start, end)
  {
    var trace := x + y;
    forall i | 0 <= i < |trace| && Timed(trace[i])
      ensures start <= trace[i].at
      ensures i < |x| ==> EndOf(trace[i]) <= middle
      ensures i >= |x| ==> middle <= trace[i].at
    {
      if i < |x| {
        assert trace[i] == x[i] && x[i] in x;
      } else {
        assert trace[i] == y[i - |x|];
      }
    }
    forall i, j | 0 <= i < j < |trace| && Timed(trace[i]) && Timed(trace[j])
      ensures EndOf(trace[i]) <= trace[j].at
    {
      if j < |x| {
        assert trace[i] == x[i] && trace[j] == x[j];
      } else if i >= |x| {
        assert trace[i] == y[i - |x|] && trace[j] == y[j - |x|];
      }
    }
  }

  /** Sleeps that follow each other between two instants fit between them. */
  lemma {:induction false} SleepsFit(trace: seq<Act>, start: Duration, limit: Duration)
    requires InOrderSince(trace, start) && start <= limit
    requires forall act :: act in trace && act.Sleep? ==> act.at + act.length <= limit
    ensures TotalSleep(trace) <= limit - start
  {
    if trace == [] {
    } else {
      var n := |trace| - 1;
      var last := trace[n];
      assert last in trace;
      forall act | act in trace[..n] && act.Sleep?
        ensures act.at + act.length <= limit
        ensures last.Sleep? ==> act.at + act.length <= last.at
      {
        var i :| 0 <= i < n && trace[..n][i] == act;
        assert trace[i] == act && EndOf(trace[i]) == act.at + act.length;
        assert Timed(trace[i]) && (last.Sleep? ==> Timed(trace[n]));
      }
      assert InOrderSince(trace[..n], start);
      SleepsFit(trace[..n], start, if last.Sleep? then last.at else limit);
    }
  }

  lemma {:induction false} DecisiveConcat(x: seq<Act>, y: seq<Act>, h: Helper)
    ensures Decisive(x + y, h) == Decisive(x, h) + Decisive(y, h)
  {
    if y == [] {
      assert x + y == x;
    } else {
      var n := |y| - 1;
      assert (x + y)[..|x + y| - 1] == x + y[..n];
      assert (x + y)[|x + y| - 1] == y[n];
      DecisiveConcat(x, y[..n], h);
    }
  }

  lemma DecisiveOne(act: Act, h: Helper)
    ensures Decisive([act], h) == if act.h == h && (act.Cancel? || act.Join? || act.Detach?) then [act] else []
  {
    assert [act][..0] == [];
  }

  lemma {:induction false} NothingDecisive(trace: seq<Act>, h: Helper)
    requires forall act :: act in trace ==> act.h != h || act.Probe? || act.Sleep?
    ensures Decisive(trace, h) == []
  {
    if trace == [] {
    } else {
      NothingDecisive(trace[..|trace| - 1], h);
    }
  }

  // ---------------------------------------------------------------------
  // The environment

  class Log {
    ghost var acts: seq<Act>

    /** Asks a helper to stop; the request takes time and may fail. */
    method RequestCancel(h: Helper, clock: Clock) returns (error: Option<IoError>, ghost at: Duration)
      modifies this, clock
      ensures acts == old(acts) + [Cancel(h, at, error)]
      ensures old(clock.now) <= at == clock.now
    {
      var issued := clock.Now();
      error := *;
      at := issued;
      acts := acts + [Cancel(h, at, error)];
    }

    method IsFinished(h: Helper) returns (finished: bool)
      modifies this
      ensures acts == old(acts) + [Probe(h, finished)]
    {
      finished := *;
      acts := acts + [Probe(h, finished)];
    }

    ghost method Note(act: Act)
      modifies this
      ensures acts == old(acts) + [act]
    {
      acts := acts + [act];
    }
  }

  // ---------------------------------------------------------------------
  // Finishing one helper

  /** A stretch of the record that only waits for `h`. */
  ghost predicate WaitFor(trace: seq<Act>, h: Helper, deadline: Duration, finished: bool) {
    && (forall act :: act in trace ==> act.h == h && (act.Probe? || act.Sleep?))
    && SleepsWithin(trace, deadline)
    && (finished <==> Confirmed(trace, h))
    && |trace| > 0 && trace[|trace| - 1] == Probe(h, finished)
  }

  /** Polls until the helper has stopped or the shared deadline has passed; gives
      up only once it has. */
  method WaitUntilFinished(h: Helper, log: Log, clock: Clock, deadline: Duration)
    returns (finished: bool, ghost trace: seq<Act>)
    modifies log, clock
    ensures log.acts == old(log.acts) + trace
    ensures WaitFor(trace, h, deadline, finished)
    ensures Timeline(trace, old(clock.now), clock.now)
    ensures !finished ==> clock.now >= deadline
  {
    finished := log.IsFinished(h);
    trace := [Probe(h, finished)];
    while !finished
      invariant log.acts == old(log.acts) + trace
      invariant WaitFor(trace, h, deadline, finished)
      invariant Timeline(trace, old(clock.now), clock.now)
      decreases SaturatingSub(deadline, clock.now)
    {
      hide Timeline, WaitFor;
      ghost var before := clock.now;
      var now := clock.Now();
      LaterTimeline(trace, old(clock.now), before, now);
      if now >= deadline {
        return;
      }
      var length := Min(POLL_INTERVAL, deadline - now);
      clock.Sleep(length);
      log.Note(Sleep(h, now, length));
      finished := log.IsFinished(h);
      SleepAndProbe(trace, h, deadline, old(clock.now), now, length, clock.now, finished);
      trace := trace + [Sleep(h, now, length), Probe(h, finished)];
    }
  }

  lemma LaterTimeline(trace: seq<Act>, start: Duration, end: Duration, later: Duration)
    requires Timeline(trace, start, end) && end <= later
    ensures Timeline(trace, start, later)
  {
  }

  lemma SleepAndProbe(trace: seq<Act>, h: Helper, deadline: Duration, start: Duration, now: Duration, length: Duration,
                      end: Duration, finished: bool)
    requires WaitFor(trace, h, deadline, false) && Timeline(trace, start, now)
    requires 0 < length <= POLL_INTERVAL && now + length <= deadline && now + length <= end
    ensures WaitFor(trace + [Sleep(h, now, length), Probe(h, finished)], h, deadline, finished)
    ensures Timeline(trace + [Sleep(h, now, length), Probe(h, finished)], start, end)
  {
    var more := [Sleep(h, now, length), Probe(h, finished)];
    TimelineConcat(trace, more, start, now, end);
    assert finished ==> more[1] in trace + more;
  }

  /** The record of finishing a helper after its cancellation was requested: it is
      given up exactly once, detached exactly if the request failed and its stop was
      never seen, and then not before the deadline. */
  ghost predicate FinishedOnce(trace: seq<Act>, h: Helper, failed: bool, detached: bool, deadline: Duration) {
    && (forall act :: act in trace ==> act.h == h && !act.Cancel?)
    && SleepsWithin(trace, deadline)
    && |Decisive(trace, h)| == 1 && GivesUp(Decisive(trace, h)[0], detached, deadline)
    && (detached <==> failed && !Confirmed(trace, h))
  }

  predicate GivesUp(act: Act, detached: bool, deadline: Duration) {
    if detached then act.Detach? && act.at >= deadline else act.Join?
  }

  lemma EndOfWait(trace: seq<Act>, h: Helper, deadline: Duration, finished: bool, act: Act, start: Duration,
                  end: Duration)
    requires WaitFor(trace, h, deadline, finished) && Timeline(trace, start, end)
    requires act == if finished then Join(h) else Detach(h, end)
    requires !finished ==> end >= deadline
    ensures FinishedOnce(trace + [act], h, true, !finished, deadline)
    ensures Timeline(trace + [act], start, end)
  {
    hide Decisive;
    NothingDecisive(trace, h);
    DecisiveConcat(trace, [act], h);
    DecisiveOne(act, h);
    TimelineConcat(trace, [act], start, end, end);
    hide Timeline;
  }

  lemma EndWithoutWait(h: Helper, deadline: Duration, now: Duration)
    ensures FinishedOnce([Join(h)], h, false, false, deadline)
    ensures Timeline([Join(h)], now, now)
  {
    DecisiveOne(Join(h), h);
  }

  /** Waits if the request failed, then notes how the helper is given up. */
  method GiveUp(h: Helper, failed: bool, log: Log, clock: Clock, deadline: Duration)
    returns (joined: bool, ghost trace: seq<Act>)
    modifies log, clock
    ensures log.acts == old(log.acts) + trace
    ensures FinishedOnce(trace, h, failed, !joined, deadline)
    ensures Timeline(trace, old(clock.now), clock.now)
  {
    hide FinishedOnce, Timeline, WaitFor;
    if failed {
      joined, trace := WaitUntilFinished(h, log, clock, deadline);
      ghost var act := if joined then Join(h) else Detach(h, clock.now);
      log.Note(act);
      EndOfWait(trace, h, deadline, joined, act, old(clock.now), clock.now);
      trace := trace + [act];
    } else {
      log.Note(Join(h));
      EndWithoutWait(h, deadline, clock.now);
      joined, trace := true, [Join(h)];
    }
  }

  /** What joining or detaching a reader yields, given its channel of the budget. */
  function EndCapture(books: Option<Channel>, worker: CaptureResult, detached: bool): HelperEnd {
    match books
    case None => if detached then Detached(CapturedOutput([], false, false)) else Joined(worker)
    case Some(c) =>
      if detached then Detached(CapturedOutput(c.bytes, c.truncated, false))
      else Joined(ReplaceOutput(worker, CapturedOutput(if c.transferred then [] else c.bytes, c.truncated, c.complete)))
  }

  function Books(ledger: Option<Ledger>, s: Stream): Option<Channel> {
    if ledger.None? then None else Some(ledger.value.Get(s))
  }

  /** The budget after one reader ended: joining moves its bytes out. */
  function AfterEnd(b: Ledger, s: Stream, end: Option<HelperEnd>): Ledger {
    if end.Some? && end.value.Joined? then Take(b, s).0 else b
  }

  function AfterEndIf(b: Option<Ledger>, s: Stream, end: Option<HelperEnd>): Option<Ledger> {
    if b.None? then None else Some(AfterEnd(b.value, s, end))
  }

  /** `seen` is the ledger at the moment the reader is joined or detached; the
      readers go on until then. */
  method FinishOutputReader(h: Helper, reader: OutputReader, peerLive: bool, failed: bool,
                            log: Log, clock: Clock, deadline: Duration)
    returns (end: HelperEnd, ghost trace: seq<Act>, ghost seen: Option<Ledger>)
    modifies log, clock, reader.budget
    ensures log.acts == old(log.acts) + trace
    ensures FinishedOnce(trace, h, failed, end.Detached?, deadline)
    ensures Timeline(trace, old(clock.now), clock.now)
    ensures MovesOn(reader.budget, old(LedgerOf(reader.budget)), seen, reader.stream.Stdout? || peerLive,
              reader.stream.Stderr? || peerLive)
    ensures end == EndCapture(Books(seen, reader.stream), reader.worker, end.Detached?)
    ensures LedgerOf(reader.budget) == AfterEndIf(seen, reader.stream, Some(end))
  {
    hide FinishedOnce, Timeline, Advances;
    var joined;
    joined, trace := GiveUp(h, failed, log, clock, deadline);
    RunReaders(reader.budget, reader.stream.Stdout? || peerLive, reader.stream.Stderr? || peerLive);
    seen := LedgerOf(reader.budget);
    if joined {
      var result := reader.Join();
      end := Joined(result);
    } else {
      var output := reader.DetachedOutput();
      end := Detached(output);
    }
    hide MovesOn;
  }

  method FinishStdinWriter(writer: StdinThread, failed: bool, log: Log, clock: Clock, deadline: Duration)
    returns (end: Option<StdinResult>, ghost trace: seq<Act>)
    modifies log, clock
    ensures log.acts == old(log.acts) + trace
    ensures FinishedOnce(trace, StdinWriter, failed, end.None?, deadline)
    ensures Timeline(trace, old(clock.now), clock.now)
    ensures end.Some? ==> end.value == AcceptBrokenPipe(writer.worker)
  {
    hide FinishedOnce, Timeline;
    var joined;
    joined, trace := GiveUp(StdinWriter, failed, log, clock, deadline);
    if !joined {
      return None, trace;
    }
    match writer.worker {
      case Ok(_) => end := Some(None);
      case Err(e) => end := Some(if e.kind.BrokenPipe? then None else Some(e));
    }
  }

  /** A failed request is forgiven only when it found nothing to cancel and the
      helper is known to have stopped. */
  function RetainCancellationFailure(cancellation: Option<IoError>, completionConfirmed: bool): Option<IoError> {
    if completionConfirmed && cancellation.Some? && cancellation.value.kind.NoPendingIo? then None else cancellation
  }

  // ---------------------------------------------------------------------
  // Finishing all helpers

  /** One helper's part of a whole shutdown record: requested once, then given up
      once; detached exactly if the request failed and no probe saw it stop, and
      then not before the deadline. */
  ghost predicate GivenUpOnce(trace: seq<Act>, h: Helper, request: Option<IoError>, detached: bool,
                              deadline: Duration)
  {
    var acts := Decisive(trace, h);
    && |acts| == 2 && acts[0].Cancel? && acts[0].error == request && GivesUp(acts[1], detached, deadline)
    && (detached <==> request.Some? && !Confirmed(trace, h))
  }

  ghost predicate NeverTouched(trace: seq<Act>, h: Helper) {
    forall act :: act in trace ==> act.h != h
  }

  /** The request made to a helper in a record; only meaningful for supplied helpers. */
  function RequestOf(trace: seq<Act>, h: Helper): Option<IoError> {
    var acts := Decisive(trace, h);
    if acts != [] && acts[0].Cancel? then acts[0].error else None
  }

  ghost predicate HelperRecord(trace: seq<Act>, h: Helper, supplied: bool, detached: bool,
                               cancellation: Option<IoError>, deadline: Duration)
  {
    if supplied then
      && GivenUpOnce(trace, h, RequestOf(trace, h), detached, deadline)
      && cancellation == RetainCancellationFailure(RequestOf(trace, h), !detached)
    else NeverTouched(trace, h) && cancellation == None
  }

  ghost predicate DetachedIn(trace: seq<Act>, h: Helper) {
    exists at :: Detach(h, at) in trace
  }

  ghost predicate RefusedWith(trace: seq<Act>, h: Helper, error: IoError) {
    exists at :: Cancel(h, at, Some(error)) in trace
  }

  lemma {:induction false} DecisiveMembers(trace: seq<Act>, h: Helper, act: Act)
    ensures act in Decisive(trace, h)
            <==> act in trace && act.h == h && (act.Cancel? || act.Join? || act.Detach?)
  {
    if trace == [] {
    } else {
      DecisiveMembers(trace[..|trace| - 1], h, act);
      assert trace == trace[..|trace| - 1] + [trace[|trace| - 1]];
    }
  }

  /** The two decisive acts on a supplied helper, as the record shows them. */
  lemma TwoDecisive(trace: seq<Act>, h: Helper, detached: bool, cancellation: Option<IoError>, deadline: Duration)
    requires HelperRecord(trace, h, true, detached, cancellation, deadline)
    ensures detached <==> DetachedIn(trace, h)
    ensures !detached <==> Join(h) in trace
    ensures forall error :: RefusedWith(trace, h, error) <==> RequestOf(trace, h) == Some(error)
  {
    var acts := Decisive(trace, h);
    assert acts == [acts[0], acts[1]];
    forall act ensures act in [acts[0], acts[1]]
                       <==> act in trace && act.h == h && (act.Cancel? || act.Join? || act.Detach?) {
      DecisiveMembers(trace, h, act);
    }
    hide Decisive, Confirmed;
    assert acts[0] in acts && acts[1] in acts;
    assert acts[0] == Cancel(h, acts[0].at, acts[0].error) && acts[0] in trace;
    assert detached ==> acts[1] == Detach(h, acts[1].at) && acts[1] in trace;
    assert !detached ==> acts[1] == Join(h);
  }

  /** Which cancellation failure is reported, from the record alone: the error of the
      request to the helper, unless it found nothing to cancel and the helper was
      joined. */
  lemma CancellationReported(trace: seq<Act>, h: Helper, supplied: bool, detached: bool,
                             cancellation: Option<IoError>, deadline: Duration)
    requires HelperRecord(trace, h, supplied, detached, cancellation, deadline)
    ensures forall error :: RefusedWith(trace, h, error) ==>
      cancellation == if DetachedIn(trace, h) || !error.kind.NoPendingIo? then Some(error) else None
    ensures (forall error :: !RefusedWith(trace, h, error)) ==> cancellation == None
  {
    if supplied {
      TwoDecisive(trace, h, detached, cancellation, deadline);
      var request := RequestOf(trace, h);
      assert request.Some? ==> RefusedWith(trace, h, request.value);
    }
    hide Decisive, RequestOf, GivenUpOnce;
  }

  lemma OneHelper(before: seq<Act>, request: Act, between: seq<Act>, own: seq<Act>, after: seq<Act>,
                  h: Helper, detached: bool, deadline: Duration)
    requires NeverTouched(before, h) && NeverTouched(between, h) && NeverTouched(after, h)
    requires request.Cancel? && request.h == h
    requires FinishedOnce(own, h, request.error.Some?, detached, deadline)
    ensures var trace := before + [request] + between + own + after;
      GivenUpOnce(trace, h, request.error, detached, deadline) && RequestOf(trace, h) == request.error
  {
    hide Decisive, GivesUp;
    var c := [request];
    DecisiveConcat(before + c + between + own, after, h);
    DecisiveConcat(before + c + between, own, h);
    DecisiveConcat(before + c, between, h);
    DecisiveConcat(before, c, h);
    DecisiveOne(request, h);
    NothingDecisive(before, h);
    NothingDecisive(between, h);
    NothingDecisive(after, h);
  }

  /** When the waits of a shutdown that started at `start` must be over. */
  function Deadline(start: Duration): Duration {
    start + CONFIRMATION_TIMEOUT
  }

  /** The whole contract of a shutdown, read off its record: every request comes
      before every wait and end, nothing happens before `start`, no sleep passes the
      one deadline, and all sleeps together fit the confirmation timeout. */
  ghost predicate Shutdown(trace: seq<Act>, start: Duration) {
    && CancelsComeFirst(trace)
    && InOrderSince(trace, start)
    && SleepsWithin(trace, Deadline(start))
    && TotalSleep(trace) <= CONFIRMATION_TIMEOUT
  }

  lemma RequestsThenRest(requests: seq<Act>, rest: seq<Act>, start: Duration, middle: Duration, end: Duration)
    requires forall act :: act in requests ==> act.Cancel?
    requires forall act :: act in rest ==> !act.Cancel?
    requires Timeline(requests, start, middle) && Timeline(rest, middle, end)
    requires SleepsWithin(rest, Deadline(start))
    ensures Shutdown(requests + rest, start)
  {
    var trace := requests + rest;
    TimelineConcat(requests, rest, start, middle, end);
    assert InOrderSince(trace, start);
    hide InOrderSince, TotalSleep, Timeline;
    assert forall i :: 0 <= i < |requests| ==> trace[i] in requests;
    assert forall j :: |requests| <= j < |trace| ==> trace[j] == rest[j - |requests|] && trace[j] in rest;
    SleepsFit(trace, start, Deadline(start));
  }

  /** Requests cancellation of a supplied helper. */
  method RequestIf(supplied: bool, h: Helper, log: Log, clock: Clock)
    returns (error: Option<IoError>, ghost requests: seq<Act>)
    modifies log, clock
    ensures log.acts == old(log.acts) + requests
    ensures IsRequest(requests, supplied, h, error)
    ensures Timeline(requests, old(clock.now), clock.now)
  {
    error, requests := None, [];
    if supplied {
      ghost var at;
      error, at := log.RequestCancel(h, clock);
      requests := [Cancel(h, at, error)];
    }
  }

  /** The requests to one helper: a single one if it was supplied. */
  ghost predicate IsRequest(requests: seq<Act>, supplied: bool, h: Helper, error: Option<IoError>) {
    if supplied then
      |requests| == 1 && requests[0].Cancel? && requests[0].h == h && requests[0].error == error
    else requests == [] && error == None
  }

  ghost predicate ReaderEnds(reader: OutputReader?, books: Option<Channel>, outcome: Outcome<HelperEnd>) {
    if reader == null then outcome.end == None
    else outcome.end.Some? && outcome.end.value == EndCapture(books, reader.worker, outcome.end.value.Detached?)
  }

  predicate WasDetached(outcome: Outcome<HelperEnd>) {
    outcome.end.Some? && outcome.end.value.Detached?
  }

  predicate WasJoined(outcome: Outcome<HelperEnd>) {
    outcome.end.Some? && outcome.end.value.Joined?
  }

  /** What finishing one helper, if there is one, adds to the record. */
  ghost predicate Stretch(own: seq<Act>, supplied: bool, h: Helper, request: Option<IoError>, detached: bool,
                          cancellation: Option<IoError>, deadline: Duration)
  {
    if supplied then
      && FinishedOnce(own, h, request.Some?, detached, deadline)
      && cancellation == RetainCancellationFailure(request, !detached)
    else own == [] && cancellation == None
  }

  method FinishReaderIf(h: Helper, s: Stream, reader: OutputReader?, budget: TotalOutputBudget?, peerLive: bool,
                        request: Option<IoError>, log: Log, clock: Clock, deadline: Duration)
    returns (outcome: Outcome<HelperEnd>, ghost trace: seq<Act>, ghost seen: Option<Ledger>)
    requires reader != null ==> reader.stream == s && reader.budget == budget
    modifies log, clock, budget
    ensures log.acts == old(log.acts) + trace
    ensures Stretch(trace, reader != null, h, request, WasDetached(outcome), outcome.cancellation, deadline)
    ensures Timeline(trace, old(clock.now), clock.now)
    ensures MovesOn(budget, old(LedgerOf(budget)), seen, s.Stdout? || peerLive, s.Stderr? || peerLive)
    ensures ReaderEnds(reader, Books(seen, s), outcome)
    ensures LedgerOf(budget) == AfterEndIf(seen, s, outcome.end)
  {
    if reader == null {
      return Outcome(None, None), [], LedgerOf(budget);
    }
    hide FinishedOnce, MovesOn, Timeline, EndCapture;
    var end;
    end, trace, seen := FinishOutputReader(h, reader, peerLive, request.Some?, log, clock, deadline);
    outcome := Outcome(Some(end), RetainCancellationFailure(request, end.Joined?));
  }

  /** An absent writer counts as joined successfully. */
  method FinishStdinIf(writer: StdinThread?, request: Option<IoError>, log: Log, clock: Clock, deadline: Duration)
    returns (outcome: Outcome<StdinResult>, ghost trace: seq<Act>)
    modifies log, clock
    ensures log.acts == old(log.acts) + trace
    ensures Stretch(trace, writer != null, StdinWriter, request, outcome.end.None?, outcome.cancellation, deadline)
    ensures Timeline(trace, old(clock.now), clock.now)
    ensures outcome.end.Some? ==> outcome.end.value == if writer == null then None else AcceptBrokenPipe(writer.worker)
  {
    if writer == null {
      return Outcome(Some(None), None), [];
    }
    hide FinishedOnce, Timeline;
    var end;
    end, trace := FinishStdinWriter(writer, request.Some?, log, clock, deadline);
    outcome := Outcome(end, RetainCancellationFailure(request, end.Some?));
  }

  /** Both readers, when present, drain the streams they are named after and share one budget. */
  ghost predicate Wired(stdout: OutputReader?, stderr: OutputReader?, budget: TotalOutputBudget?) {
    && (stdout != null ==> stdout.stream == Stdout && stdout.budget == budget)
    && (stderr != null ==> stderr.stream == Stderr && stderr.budget == budget)
  }

  datatype HelperEnds = HelperEnds(out: Outcome<HelperEnd>, err: Outcome<HelperEnd>, inp: Outcome<StdinResult>)

  /** The ledger at four moments: when the shutdown starts, when each reader is
      ended, and afterwards. */
  datatype Passage = Passage(start: Option<Ledger>, out: Option<Ledger>, err: Option<Ledger>, end: Option<Ledger>)

  /** Between those moments only the readers still alive move the ledger, apart from
      the runner taking the bytes of a joined one. */
  ghost predicate Passes(budget: TotalOutputBudget?, p: Passage, ends: HelperEnds) {
    && MovesOn(budget, p.start, p.out, true, true)
    && MovesOn(budget, AfterEndIf(p.out, Stdout, ends.out.end), p.err, !WasJoined(ends.out), true)
    && p.end == AfterEndIf(p.err, Stderr, ends.err.end)
  }

  /** What finishing the helpers did: it meets the shutdown contract, every supplied
      helper was given up exactly once, each end shows what the worker or the budget
      held at that moment, and joined bytes were moved out. */
  ghost predicate AllFinished(stdout: OutputReader?, stderr: OutputReader?, stdin: StdinThread?,
                              budget: TotalOutputBudget?,
                              ends: HelperEnds, p: Passage, trace: seq<Act>, start: Duration)
  {
    && Shutdown(trace, start)
    && HelperRecord(trace, StdoutReader, stdout != null, WasDetached(ends.out), ends.out.cancellation, Deadline(start))
    && HelperRecord(trace, StderrReader, stderr != null, WasDetached(ends.err), ends.err.cancellation, Deadline(start))
    && HelperRecord(trace, StdinWriter, stdin != null, ends.inp.end.None?, ends.inp.cancellation, Deadline(start))
    && Passes(budget, p, ends)
    && ReaderEnds(stdout, Books(p.out, Stdout), ends.out)
    && ReaderEnds(stderr, Books(p.err, Stderr), ends.err)
    && (ends.inp.end.Some? ==> ends.inp.end.value == if stdin == null then None else AcceptBrokenPipe(stdin.worker))
  }

  /** `finish_helpers_with_wait`; `start` is read before the first request. */
  method FinishHelpers(stdout: OutputReader?, stderr: OutputReader?, stdin: StdinThread?,
                       budget: TotalOutputBudget?, log: Log, clock: Clock)
    returns (ends: HelperEnds, ghost p: Passage, ghost trace: seq<Act>, ghost start: Duration)
    requires Wired(stdout, stderr, budget)
    modifies log, clock, budget
    ensures log.acts == old(log.acts) + trace
    ensures old(clock.now) <= start
    ensures AllFinished(stdout, stderr, stdin, budget, ends, p, trace, start)
    ensures p.start == old(LedgerOf(budget)) && p.end == LedgerOf(budget)
  {
    hide Stretch, IsRequest, Timeline, EndCapture, AfterEnd, MovesOn, ReaderEnds, Shutdown, HelperRecord;
    var begin := clock.Now();
    start := begin;
    ghost var r1, r2, r3, t1, t2, t3, seenOut, seenErr;
    var c1, c2, c3, out, err, inp;
    c1, c2, c3, r1, r2, r3 := RequestAll(stdout != null, stderr != null, stdin != null, log, clock);
    ghost var middle := clock.now;
    out, t1, seenOut := FinishReaderIf(StdoutReader, Stdout, stdout, budget, true, c1, log, clock, Deadline(begin));
    ghost var later := clock.now;
    err, t2, seenErr := FinishReaderIf(StderrReader, Stderr, stderr, budget, !WasJoined(out), c2, log, clock,
      Deadline(begin));
    ghost var latest := clock.now;
    inp, t3 := FinishStdinIf(stdin, c3, log, clock, Deadline(begin));
    ends := HelperEnds(out, err, inp);
    p := Passage(old(LedgerOf(budget)), seenOut, seenErr, LedgerOf(budget));
    trace := (r1 + r2 + r3) + (t1 + t2 + t3);
    TimelineConcat(t1, t2, middle, later, latest);
    TimelineConcat(t1 + t2, t3, middle, latest, clock.now);
    WholeRecord(r1, r2, r3, t1, t2, t3, stdout != null, stderr != null, stdin != null, c1, c2, c3, ends, start, middle,
      clock.now);
  }

  /** Every request is issued before any helper is waited for. */
  method RequestAll(stdout: bool, stderr: bool, stdin: bool, log: Log, clock: Clock)
    returns (c1: Option<IoError>, c2: Option<IoError>, c3: Option<IoError>,
             ghost r1: seq<Act>, ghost r2: seq<Act>, ghost r3: seq<Act>)
    modifies log, clock
    ensures log.acts == old(log.acts) + (r1 + r2 + r3)
    ensures IsRequest(r1, stdout, StdoutReader, c1)
    ensures IsRequest(r2, stderr, StderrReader, c2)
    ensures IsRequest(r3, stdin, StdinWriter, c3)
    ensures Timeline(r1 + r2 + r3, old(clock.now), clock.now)
  {
    hide IsRequest, Timeline;
    c1, r1 := RequestIf(stdout, StdoutReader, log, clock);
    ghost var one := clock.now;
    c2, r2 := RequestIf(stderr, StderrReader, log, clock);
    ghost var two := clock.now;
    c3, r3 := RequestIf(stdin, StdinWriter, log, clock);
    TimelineConcat(r1, r2, old(clock.now), one, two);
    TimelineConcat(r1 + r2, r3, old(clock.now), two, clock.now);
  }

  /** Requests and acts that concern `h` alone; only requests cancel. */
  ghost predicate OnlyOf(requests: seq<Act>, own: seq<Act>, h: Helper, deadline: Duration) {
    && (forall act :: act in requests ==> act.h == h && act.Cancel?)
    && (forall act :: act in own ==> act.h == h && !act.Cancel?)
    && SleepsWithin(own, deadline)
  }

  lemma PieceIsOnly(requests: seq<Act>, own: seq<Act>, supplied: bool, h: Helper, request: Option<IoError>,
                    detached: bool, cancellation: Option<IoError>, deadline: Duration)
    requires IsRequest(requests, supplied, h, request)
    requires Stretch(own, supplied, h, request, detached, cancellation, deadline)
    ensures OnlyOf(requests, own, h, deadline)
  {
    hide Decisive, GivesUp;
  }

  lemma PieceRecord(before: seq<Act>, requests: seq<Act>, between: seq<Act>, own: seq<Act>, after: seq<Act>,
                    supplied: bool, h: Helper, request: Option<IoError>, detached: bool, cancellation: Option<IoError>,
                    deadline: Duration)
    requires NeverTouched(before, h) && NeverTouched(between, h) && NeverTouched(after, h)
    requires IsRequest(requests, supplied, h, request)
    requires Stretch(own, supplied, h, request, detached, cancellation, deadline)
    ensures HelperRecord(before + requests + between + own + after, h, supplied, detached, cancellation, deadline)
  {
    hide Decisive, RequestOf, GivenUpOnce, SleepsWithin, FinishedOnce;
    if supplied {
      assert requests == [requests[0]];
      OneHelper(before, requests[0], between, own, after, h, detached, deadline);
    }
  }

  lemma WholeRecord(r1: seq<Act>, r2: seq<Act>, r3: seq<Act>, t1: seq<Act>, t2: seq<Act>, t3: seq<Act>,
                    stdout: bool, stderr: bool, stdin: bool,
                    c1: Option<IoError>, c2: Option<IoError>, c3: Option<IoError>,
                    ends: HelperEnds, start: Duration, middle: Duration, end: Duration)
    requires IsRequest(r1, stdout, StdoutReader, c1)
    requires IsRequest(r2, stderr, StderrReader, c2)
    requires IsRequest(r3, stdin, StdinWriter, c3)
    requires Stretch(t1, stdout, StdoutReader, c1, WasDetached(ends.out), ends.out.cancellation, Deadline(start))
    requires Stretch(t2, stderr, StderrReader, c2, WasDetached(ends.err), ends.err.cancellation, Deadline(start))
    requires Stretch(t3, stdin, StdinWriter, c3, ends.inp.end.None?, ends.inp.cancellation, Deadline(start))
    requires Timeline(r1 + r2 + r3, start, middle) && Timeline(t1 + t2 + t3, middle, end)
    ensures var trace := (r1 + r2 + r3) + (t1 + t2 + t3);
      && Shutdown(trace, start)
      && HelperRecord(trace, StdoutReader, stdout, WasDetached(ends.out), ends.out.cancellation, Deadline(start))
      && HelperRecord(trace, StderrReader, stderr, WasDetached(ends.err), ends.err.cancellation, Deadline(start))
      && HelperRecord(trace, StdinWriter, stdin, ends.inp.end.None?, ends.inp.cancellation, Deadline(start))
  {
    hide Stretch, IsRequest, HelperRecord, Shutdown, Timeline, WasDetached, Deadline;
    var d := Deadline(start);
    PieceIsOnly(r1, t1, stdout, StdoutReader, c1, WasDetached(ends.out), ends.out.cancellation, d);
    PieceIsOnly(r2, t2, stderr, StderrReader, c2, WasDetached(ends.err), ends.err.cancellation, d);
    PieceIsOnly(r3, t3, stdin, StdinWriter, c3, ends.inp.end.None?, ends.inp.cancellation, d);
    RequestsThenRest(r1 + r2 + r3, t1 + t2 + t3, start, middle, end);
    var trace := (r1 + r2 + r3) + (t1 + t2 + t3);
    hide SleepsWithin;
    assert trace == [] + r1 + (r2 + r3) + t1 + (t2 + t3);
    PieceRecord([], r1, r2 + r3, t1, t2 + t3, stdout, StdoutReader, c1, WasDetached(ends.out),
      ends.out.cancellation, d);
    assert trace == r1 + r2 + (r3 + t1) + t2 + t3;
    PieceRecord(r1, r2, r3 + t1, t2, t3, stderr, StderrReader, c2, WasDetached(ends.err), ends.err.cancellation, d);
    assert trace == (r1 + r2) + r3 + (t1 + t2) + t3 + [];
    PieceRecord(r1 + r2, r3, t1 + t2, t3, [], stdin, StdinWriter, c3, ends.inp.end.None?, ends.inp.cancellation, d);
  }
}
