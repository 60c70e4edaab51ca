/** The loop that drains one output pipe
    (`src/command_runner/internal/output_collector.rs`).

    The loop is first given as a step machine in which every lock acquisition,
    cancellation test, poll, pipe read and tee write is one step whose outcome
    comes from outside.  One machine covers both modes: `NoBudget` retains bytes
    locally, `Budget` charges the shared ledger.  `ReadOutputInner` is the loop
    itself, proved to be a run of the machine. */
module OutputCollector {
  import opened Basics
  import opened Pipes
  import opened OutputBudget

  const CHUNK_SIZE: nat := 8 * 1024

  datatype CaptureError =
    | ReadError(source: IoError, output: CapturedOutput)
    | WriteError(path: Path, source: IoError, output: CapturedOutput)
    | ReadAfterWrite(path: Path, writeSource: IoError, readSource: IoError, output: CapturedOutput)

  type CaptureResult = Result<CapturedOutput, CaptureError>

  datatype TeeFailure = TeeFailure(path: Path, source: IoError)

  datatype Options = Options(cap: Option<nat>, tee: Option<Path>)

  /** Where consumed bytes are accounted for. */
  datatype Account = NoBudget | Budget(limits: Limits, stream: Stream, ledger: Ledger)

  /** How the loop was left: end of file, stopped early, or a pipe error. */
  datatype Stop = AtEof | Stopped | Broken(error: IoError)

  datatype Pc =
    | Top                                 // before the cancellation test
    | AwaitReady                          // before waiting for the pipe
    | Reading(ready: nat)                 // before the read
    | Blocked                             // the read would block
    | Failed(error: IoError)              // the read failed
    | ZeroSeen                            // the read returned nothing
    | Marking                             // before marking the stream complete
    | HaveChunk(chunk: seq<Byte>)         // before the second cancellation test
    | Teeing(chunk: seq<Byte>)            // before the tee write
    | Asking                              // before asking whether the budget is exceeded
    | Leaving(stop: Stop)                 // before the tee flush
    | Reporting(stop: Stop)               // before building the result
    | Finished(stop: Stop, result: CaptureResult)

  /** Locals of the loop, plus three history variables: all bytes `consumed`
      from the pipe, whether the pipe reported end of file, and whether a
      cancellation test succeeded. */
  datatype Reader = Reader(
    pc: Pc,
    bytes: seq<Byte>, truncated: bool,
    tee: Option<Path>, teeContent: seq<Byte>, writeError: Option<TeeFailure>,
    consumed: seq<Byte>, sawEof: bool, sawCancel: bool)

  datatype Machine = Machine(reader: Reader, account: Account)

  datatype Readiness = Readable(available: nat) | PeekEof | WaitCancelled | WaitFailed(error: IoError)

  datatype Event =
    | Observe(cancelled: bool)
    | Ready(readiness: Readiness)
    | Answered(answer: Result<seq<Byte>, IoError>)
    | TeeWrite(error: Option<IoError>, written: nat)
    | Flush(error: Option<IoError>)
    | Internal

  function StartReader(o: Options): Reader {
    Reader(Top, [], false, o.tee, [], None, [], false, false)
  }

  // ---------------------------------------------------------------------
  // Steps

  /** The size of the read request; zero means the pipe is not asked at all. */
  function Asked(a: Account, ready: nat): nat {
    match a
    case NoBudget => CHUNK_SIZE
    case Budget(l, _, b) => PipeRequest(l, b, CHUNK_SIZE, ready)
  }

  predicate Halted(a: Account) {
    a.Budget? && a.ledger.halted
  }

  /** Which outcomes the environment may produce at each point. */
  predicate Enabled(m: Machine, e: Event) {
    match m.reader.pc
    case Top | Blocked | Failed(_) | HaveChunk(_) => e.Observe?
    case AwaitReady => e.Ready? && (e.readiness.Readable? ==> e.readiness.available > 0)
                       && (e.readiness.PeekEof? ==> m.account.Budget?)
    case Reading(ready) => e.Answered? && (e.answer.Ok? ==> |e.answer.value| <= Asked(m.account, ready))
    case Teeing(chunk) => e.TeeWrite? && e.written <= |chunk|
    case Leaving(_) => e.Flush?
    case ZeroSeen | Marking | Asking | Reporting(_) => e.Internal?
    case Finished(_, _) => false
  }

  function Report(writeError: Option<TeeFailure>, stop: Stop, output: CapturedOutput): CaptureResult {
    match (writeError, stop)
    case (Some(w), Broken(e)) => Err(ReadAfterWrite(w.path, w.source, e, output))
    case (Some(w), _) => Err(WriteError(w.path, w.source, output))
    case (None, Broken(e)) => Err(ReadError(e, output))
    case (None, _) => Ok(output)
  }

  /** Moves the program counter and nothing else. */
  function Goto(m: Machine, pc: Pc): Machine {
    m.(reader := m.reader.(pc := pc))
  }

  function StepObserve(m: Machine, cancelled: bool): Machine {
    if cancelled then m.(reader := m.reader.(pc := Leaving(Stopped), sawCancel := true))
    else match m.reader.pc
      case Top => Goto(m, AwaitReady)
      case Failed(e) => Goto(m, Leaving(Broken(e)))
      case HaveChunk(chunk) => Goto(m, Teeing(chunk))
      case _ => Goto(m, Top)
  }

  function StepReady(m: Machine, readiness: Readiness): Machine {
    match readiness
    case Readable(available) => Goto(m, Reading(available))
    case PeekEof => m.(reader := m.reader.(pc := Marking, sawEof := true))
    case WaitCancelled => m.(reader := m.reader.(pc := Leaving(Stopped), sawCancel := true))
    case WaitFailed(e) => Goto(m, Leaving(Broken(e)))
  }

  function StepRead(o: Options, m: Machine, ready: nat, answer: Result<seq<Byte>, IoError>): Machine {
    match m.account
    case NoBudget => GotAnswer(o, m, ready, answer)
    case Budget(l, s, b) =>
      var (b', result) := AfterReadReady(l, b, s, CHUNK_SIZE, ready, answer);
      GotAnswer(o, m, ready, result).(account := Budget(l, s, b'))
  }

  /** The reader's own reaction to what the (possibly budgeted) read returned. */
  function GotAnswer(o: Options, m: Machine, ready: nat, result: Result<seq<Byte>, IoError>): Machine {
    match result
    case Err(e) => Goto(m, if e.kind.Interrupted? then Top else if e.kind.WouldBlock? then Blocked else Failed(e))
    case Ok(chunk) => if chunk == [] then GotNothing(m, ready) else GotChunk(o, m, chunk)
  }

  function GotNothing(m: Machine, ready: nat): Machine {
    m.(reader := m.reader.(pc := ZeroSeen, sawEof := m.reader.sawEof || Asked(m.account, ready) > 0))
  }

  function GotChunk(o: Options, m: Machine, chunk: seq<Byte>): Machine {
    var r := m.reader.(pc := HaveChunk(chunk), consumed := m.reader.consumed + chunk);
    if m.account.Budget? then m.(reader := r)
    else m.(reader := r.(bytes := KeepBytes(r.bytes, chunk, o.cap),
                         truncated := r.truncated || Drops(r.bytes, chunk, o.cap)))
  }

  function StepMark(m: Machine): Machine {
    var left := Goto(m, Leaving(AtEof));
    match m.account
    case NoBudget => left
    case Budget(l, s, b) => left.(account := Budget(l, s, AfterMarkComplete(b, s)))
  }

  function StepTee(m: Machine, chunk: seq<Byte>, error: Option<IoError>, written: nat): Machine
    requires written <= |chunk|
  {
    var r := m.reader.(pc := Asking);
    if r.tee.None? then m.(reader := r)
    else match error
      case None => m.(reader := r.(teeContent := r.teeContent + chunk))
      case Some(e) => m.(reader := r.(teeContent := r.teeContent + chunk[..written],
                                      writeError := Some(TeeFailure(r.tee.value, e)), tee := None))
  }

  function StepFlush(m: Machine, stop: Stop, error: Option<IoError>): Machine {
    var r := m.reader.(pc := Reporting(stop));
    if stop.AtEof? && r.tee.Some? && error.Some?
    then m.(reader := r.(writeError := Some(TeeFailure(r.tee.value, error.value))))
    else m.(reader := r)
  }

  function StepReport(m: Machine, stop: Stop): Machine {
    var output := match m.account
      case Budget(l, s, b) => Snapshot(b, s).(bytes := [])
      case NoBudget => CapturedOutput(m.reader.bytes, m.reader.truncated, stop.AtEof?);
    Goto(m, Finished(stop, Report(m.reader.writeError, stop, output)))
  }

  /** One step; an outcome the environment cannot produce here changes nothing. */
  function Step(o: Options, m: Machine, e: Event): Machine {
    if !Enabled(m, e) then m
    else match m.reader.pc
      case Top | Blocked | Failed(_) | HaveChunk(_) => StepObserve(m, e.cancelled)
      case AwaitReady => StepReady(m, e.readiness)
      case Reading(ready) => StepRead(o, m, ready, e.answer)
      case ZeroSeen => Goto(m, if Halted(m.account) then Leaving(Stopped) else Marking)
      case Marking => StepMark(m)
      case Teeing(chunk) => StepTee(m, chunk, e.error, e.written)
      case Asking => Goto(m, if m.account.Budget? && m.account.ledger.exceeded then Leaving(Stopped) else Top)
      case Leaving(stop) => StepFlush(m, stop, e.error)
      case Reporting(stop) => StepReport(m, stop)
      case Finished(_, _) => m
  }

  function Run(o: Options, m: Machine, events: seq<Event>): Machine {
    if events == [] then m
    else Step(o, Run(o, m, events[..|events| - 1]), events[|events| - 1])
  }

  lemma RunExtends(o: Options, m: Machine, events: seq<Event>, e: Event)
    ensures Run(o, m, events + [e]) == Step(o, Run(o, m, events), e)
  {
    assert (events + [e])[..|events|] == events;
  }

  // ---------------------------------------------------------------------
  // What every step keeps

  /** How the loop has been left, if it has. */
  function Left(pc: Pc): Option<Stop> {
    match pc
    case Leaving(stop) => Some(stop)
    case Reporting(stop) => Some(stop)
    case Finished(stop, _) => Some(stop)
    case _ => None
  }

  /** Bytes consumed but not yet offered to the tee. */
  function Pending(pc: Pc): seq<Byte> {
    match pc
    case HaveChunk(chunk) => chunk
    case Teeing(chunk) => chunk
    case _ => []
  }

  ghost predicate CaptureOk(o: Options, m: Machine) {
    match m.account
    case NoBudget => m.reader.bytes == Retained(m.reader.consumed, o.cap)
                     && m.reader.truncated == Overflows(m.reader.consumed, o.cap)
    case Budget(l, s, b) => Balanced(l, b) && b.Get(s).consumed == m.reader.consumed
                            && (b.Get(s).transferred ==> m.reader.pc.Finished?)
  }

  /** The tee holds a prefix of the consumed bytes; while it is healthy it lags
      only by the chunk in hand; it is given up exactly when an error was kept. */
  ghost predicate TeeOk(o: Options, r: Reader) {
    && r.teeContent <= r.consumed
    && (r.tee.Some? ==> r.tee == o.tee)
    && (r.tee.Some? && Left(r.pc) != Some(Stopped) ==> r.teeContent + Pending(r.pc) == r.consumed)
    && (r.tee.None? && o.tee.Some? ==> r.writeError.Some?)
    && (r.writeError.Some? ==> o.tee == Some(r.writeError.value.path))
    && (r.writeError.Some? && r.tee.Some? ==> Left(r.pc) == Some(AtEof) && !r.pc.Leaving?)
  }

  /** `complete` is set by, and only by, a stop at the pipe's own end of file;
      an end of file that was seen can be lost only to a halted budget. */
  ghost predicate EofOk(m: Machine) {
    var r := m.reader;
    && (m.account.Budget? ==> (m.account.ledger.Get(m.account.stream).complete <==> Left(r.pc) == Some(AtEof)))
    && (r.pc.Marking? || Left(r.pc) == Some(AtEof) ==> r.sawEof)
    && (r.pc.ZeroSeen? ==> r.sawEof || Halted(m.account))
    && (r.sawEof ==> r.pc.ZeroSeen? || r.pc.Marking? || Left(r.pc).Some?)
    && (r.sawEof && Left(r.pc).Some? && Left(r.pc) != Some(AtEof) ==> Halted(m.account))
    && (Left(r.pc) == Some(Stopped) ==> r.sawCancel || Halted(m.account))
    && (r.sawCancel ==> Left(r.pc) == Some(Stopped))
    && (r.pc.Reading? ==> r.pc.ready > 0)
  }

  ghost predicate ReportOk(o: Options, m: Machine) {
    m.reader.pc.Finished? ==>
      m.reader.pc.result == Report(m.reader.writeError, m.reader.pc.stop,
        Capture(m.reader.consumed, EffectiveCap(o, m.account), m.reader.pc.stop.AtEof?).(
          bytes := if m.account.Budget? then [] else Retained(m.reader.consumed, o.cap)))
  }

  function EffectiveCap(o: Options, a: Account): Option<nat> {
    if a.Budget? then a.limits.Cap(a.stream) else o.cap
  }

  ghost predicate MachineOk(o: Options, m: Machine) {
    CaptureOk(o, m) && TeeOk(o, m.reader) && EofOk(m) && ReportOk(o, m)
  }

  /** An account on which no byte of this stream has been charged yet. */
  ghost predicate FreshAccount(a: Account) {
    a.Budget? ==>
      && Balanced(a.limits, a.ledger)
      && var c := a.ledger.Get(a.stream); c.consumed == [] && !c.complete && !c.transferred
  }

  lemma StartOk(o: Options, a: Account)
    requires FreshAccount(a)
    ensures MachineOk(o, Machine(StartReader(o), a))
  {
  }

  lemma OkIsBalanced(o: Options, m: Machine)
    requires MachineOk(o, m) && m.account.Budget?
    ensures Balanced(m.account.limits, m.account.ledger)
  {
  }

  lemma ObserveKeepsOk(o: Options, m: Machine, cancelled: bool)
    requires MachineOk(o, m) && Enabled(m, Observe(cancelled))
    ensures MachineOk(o, StepObserve(m, cancelled))
  {
  }

  lemma ReadyKeepsOk(o: Options, m: Machine, readiness: Readiness)
    requires MachineOk(o, m) && Enabled(m, Ready(readiness))
    ensures MachineOk(o, StepReady(m, readiness))
  {
  }

  lemma ReadKeepsOk(o: Options, m: Machine, ready: nat, answer: Result<seq<Byte>, IoError>)
    requires MachineOk(o, m) && m.reader.pc == Reading(ready) && Enabled(m, Answered(answer))
    ensures MachineOk(o, StepRead(o, m, ready, answer))
  {
    match m.account {
      case NoBudget => LocalReadKeepsOk(o, m, ready, answer);
      case Budget(_, _, _) => ChargedReadKeepsOk(o, m, ready, answer);
    }
  }

  lemma LocalReadKeepsOk(o: Options, m: Machine, ready: nat, answer: Result<seq<Byte>, IoError>)
    requires MachineOk(o, m) && m.reader.pc == Reading(ready) && m.account.NoBudget?
    ensures MachineOk(o, GotAnswer(o, m, ready, answer))
  {
    if answer.Ok? {
      KeepingIsPrefixOfWhole(m.reader.consumed, answer.value, o.cap);
    }
    AnswerKeepsTeeOk(o, m, ready, answer);
    hide TeeOk;
  }

  lemma AnswerKeepsTeeOk(o: Options, m: Machine, ready: nat, result: Result<seq<Byte>, IoError>)
    requires TeeOk(o, m.reader) && m.reader.pc == Reading(ready)
    ensures TeeOk(o, GotAnswer(o, m, ready, result).reader)
  {
    hide KeepBytes, Drops, Asked;
  }

  lemma ChargedReadKeepsOk(o: Options, m: Machine, ready: nat, answer: Result<seq<Byte>, IoError>)
    requires MachineOk(o, m) && m.reader.pc == Reading(ready) && Enabled(m, Answered(answer)) && m.account.Budget?
    ensures MachineOk(o, StepRead(o, m, ready, answer))
  {
    var Budget(l, s, b) := m.account;
    ReadMovesChannel(l, s, b, ready, answer);
    var (b', result) := AfterReadReady(l, b, s, CHUNK_SIZE, ready, answer);
    assert StepRead(o, m, ready, answer) == GotAnswer(o, m, ready, result).(account := Budget(l, s, b'));
    AnswerKeepsTeeOk(o, m, ready, result);
    ChargedAnswerKeepsOk(o, m, ready, b', result);
  }

  lemma ChargedAnswerKeepsOk(o: Options, m: Machine, ready: nat, b': Ledger, result: Result<seq<Byte>, IoError>)
    requires MachineOk(o, m) && m.reader.pc == Reading(ready) && m.account.Budget?
    requires var Budget(l, s, b) := m.account; ChannelMoved(l, s, b, b', ready, result)
    requires TeeOk(o, GotAnswer(o, m, ready, result).reader)
    ensures MachineOk(o, GotAnswer(o, m, ready, result).(account := m.account.(ledger := b')))
  {
    hide TeeOk, PipeRequest, Balanced, KeepBytes, Drops, Report;
  }

  ghost predicate ChannelMoved(l: Limits, s: Stream, b: Ledger, b': Ledger, ready: nat,
                               result: Result<seq<Byte>, IoError>)
  {
    && Balanced(l, b') && (b.halted ==> b' == b && result == Ok([]))
    && b'.Get(s).complete == b.Get(s).complete && !b'.Get(s).transferred
    && b'.Get(s).consumed == b.Get(s).consumed + (if result.Ok? then result.value else [])
    && (PipeRequest(l, b, CHUNK_SIZE, ready) == 0 <==> b.halted)
    && (result.Ok? && result.value == [] ==> b'.halted == b.halted)
  }

  /** What a charged read changes in the ledger, as far as its reader can see. */
  lemma ReadMovesChannel(l: Limits, s: Stream, b: Ledger, ready: nat, answer: Result<seq<Byte>, IoError>)
    requires Balanced(l, b) && !b.Get(s).transferred && ready > 0
    requires answer.Ok? ==> |answer.value| <= PipeRequest(l, b, CHUNK_SIZE, ready)
    ensures var (b', result) := AfterReadReady(l, b, s, CHUNK_SIZE, ready, answer);
      ChannelMoved(l, s, b, b', ready, result)
  {
    RunningRequestIsPositive(l, b, CHUNK_SIZE, ready);
    ReadingBalances(l, b, s, CHUNK_SIZE, ready, answer);
    hide KeepBytes, Drops, Retained, Overflows;
  }

  lemma MarkKeepsOk(o: Options, m: Machine)
    requires MachineOk(o, m) && m.reader.pc.Marking?
    ensures MachineOk(o, StepMark(m))
  {
  }

  lemma TeeKeepsOk(o: Options, m: Machine, chunk: seq<Byte>, error: Option<IoError>, written: nat)
    requires MachineOk(o, m) && m.reader.pc == Teeing(chunk) && written <= |chunk|
    ensures MachineOk(o, StepTee(m, chunk, error, written))
  {
  }

  lemma FlushKeepsOk(o: Options, m: Machine, stop: Stop, error: Option<IoError>)
    requires MachineOk(o, m) && m.reader.pc == Leaving(stop)
    ensures MachineOk(o, StepFlush(m, stop, error))
  {
  }

  lemma ReportKeepsOk(o: Options, m: Machine, stop: Stop)
    requires MachineOk(o, m) && m.reader.pc == Reporting(stop)
    ensures MachineOk(o, StepReport(m, stop))
  {
  }

  lemma AskKeepsOk(o: Options, m: Machine)
    requires MachineOk(o, m) && (m.reader.pc.ZeroSeen? || m.reader.pc.Asking?)
    ensures MachineOk(o, Step(o, m, Internal))
  {
  }

  lemma StepKeepsOk(o: Options, m: Machine, e: Event)
    requires MachineOk(o, m)
    ensures MachineOk(o, Step(o, m, e))
  {
    if Enabled(m, e) {
      match e {
        case Observe(cancelled) => ObserveKeepsOk(o, m, cancelled);
        case Ready(readiness) => ReadyKeepsOk(o, m, readiness);
        case Answered(answer) => ReadKeepsOk(o, m, m.reader.pc.ready, answer);
        case TeeWrite(error, written) => TeeKeepsOk(o, m, m.reader.pc.chunk, error, written);
        case Flush(error) => FlushKeepsOk(o, m, m.reader.pc.stop, error);
        case Internal =>
          if m.reader.pc.Marking? {
            MarkKeepsOk(o, m);
          } else if m.reader.pc.Reporting? {
            ReportKeepsOk(o, m, m.reader.pc.stop);
          } else {
            AskKeepsOk(o, m);
          }
      }
    }
  }

  // ---------------------------------------------------------------------
  // Every run

  lemma {:induction false} RunKeepsOk(o: Options, m: Machine, events: seq<Event>)
    requires MachineOk(o, m)
    ensures MachineOk(o, Run(o, m, events))
  {
    if events == [] {
    } else {
      RunKeepsOk(o, m, events[..|events| - 1]);
      StepKeepsOk(o, Run(o, m, events[..|events| - 1]), events[|events| - 1]);
    }
  }

  /** A reader never changes mode, budget or stream. */
  lemma {:induction false} RunKeepsMode(o: Options, m: Machine, events: seq<Event>)
    ensures SameMode(Run(o, m, events).account, m.account)
  {
    if events == [] {
    } else {
      RunKeepsMode(o, m, events[..|events| - 1]);
      StepKeepsMode(o, Run(o, m, events[..|events| - 1]), events[|events| - 1]);
    }
  }

  ghost predicate SameMode(a: Account, b: Account) {
    if b.NoBudget? then a.NoBudget? else a.Budget? && (a.limits, a.stream) == (b.limits, b.stream)
  }

  lemma StepKeepsMode(o: Options, m: Machine, e: Event)
    ensures SameMode(Step(o, m, e).account, m.account)
  {
  }

  /** The capture a reader returns itself; the bytes of a budgeted reader stay in the budget. */
  function Delivered(o: Options, a: Account, consumed: seq<Byte>, stop: Stop): CapturedOutput {
    match a
    case NoBudget => Capture(consumed, o.cap, stop.AtEof?)
    case Budget(l, s, _) => Capture(consumed, l.Cap(s), stop.AtEof?).(bytes := [])
  }

  /** The collector in both modes, for every pipe, tee and cancellation behaviour:
      the returned bytes and flags are a function of the consumed bytes and of how
      the loop ended; the tee is a prefix of the consumed bytes, all of them when
      the pipe ended and no tee error was kept; and the error variant says exactly
      which of tee and pipe failed. */
  lemma EveryCollectorRun(o: Options, a: Account, events: seq<Event>)
    requires FreshAccount(a)
    ensures var m := Run(o, Machine(StartReader(o), a), events);
      var r := m.reader;
      && SameMode(m.account, a)
      && r.teeContent <= r.consumed
      && (r.pc.Finished? ==>
            && r.pc.result == Report(r.writeError, r.pc.stop, Delivered(o, m.account, r.consumed, r.pc.stop))
            && (r.pc.result.Ok? <==> r.writeError.None? && !r.pc.stop.Broken?)
            && (r.pc.stop.AtEof? ==> r.sawEof)
            && (a.NoBudget? ==> (r.pc.stop.AtEof? <==> r.sawEof) && (r.pc.stop.Stopped? <==> r.sawCancel))
            && (r.pc.stop.AtEof? && o.tee.Some? && r.writeError.None? ==> r.teeContent == r.consumed))
  {
    StartOk(o, a);
    RunKeepsOk(o, Machine(StartReader(o), a), events);
    RunKeepsMode(o, Machine(StartReader(o), a), events);
    hide Balanced, Retained, Overflows;
  }

  /** Chunking is invisible: an unbudgeted run that reached end of file depends only
      on the concatenation of what it read, whatever the chunks, retries and polls. */
  lemma ChunkingIsInvisible(o: Options, events: seq<Event>, others: seq<Event>)
    requires var start := Machine(StartReader(o), NoBudget);
      var r, q := Run(o, start, events).reader, Run(o, start, others).reader;
      && r.pc.Finished? && r.pc.stop.AtEof? && r.writeError.None?
      && q.pc.Finished? && q.pc.stop.AtEof? && q.writeError.None?
      && r.consumed == q.consumed
    ensures var start := Machine(StartReader(o), NoBudget);
      var r, q := Run(o, start, events).reader, Run(o, start, others).reader;
      && r.pc.result == q.pc.result == Ok(Capture(r.consumed, o.cap, true))
      && (o.tee.Some? ==> r.teeContent == q.teeContent == r.consumed)
  {
    EveryCollectorRun(o, NoBudget, events);
    EveryCollectorRun(o, NoBudget, others);
    hide Run;
  }

  /** A kept tee failure is never replaced or erased, whatever happens later. */
  lemma {:induction false} TeeFailureIsKept(o: Options, m: Machine, events: seq<Event>)
    requires MachineOk(o, m) && m.reader.writeError.Some?
    ensures Run(o, m, events).reader.writeError == m.reader.writeError
  {
    if events == [] {
    } else {
      var before := events[..|events| - 1];
      TeeFailureIsKept(o, m, before);
      RunKeepsOk(o, m, before);
      StepKeepsTeeFailure(o, Run(o, m, before), events[|events| - 1]);
    }
  }

  lemma StepKeepsTeeFailure(o: Options, m: Machine, e: Event)
    requires MachineOk(o, m) && m.reader.writeError.Some?
    ensures Step(o, m, e).reader.writeError == m.reader.writeError
  {
  }

  // A failing tee does not disturb the capture

  /** The same outcome with a tee that never fails. */
  function Muted(e: Event): Event {
    match e
    case TeeWrite(_, written) => TeeWrite(None, written)
    case Flush(_) => Flush(None)
    case _ => e
  }

  function MutedAll(events: seq<Event>): seq<Event> {
    seq(|events|, i requires 0 <= i < |events| => Muted(events[i]))
  }

  /** Equal up to everything the tee influences. */
  ghost predicate SameCapture(m: Machine, q: Machine) {
    && m.account == q.account
    && (m.reader.pc == q.reader.pc || (m.reader.pc.Finished? && q.reader.pc.Finished?))
    && Left(m.reader.pc) == Left(q.reader.pc)
    && (m.reader.bytes, m.reader.truncated, m.reader.consumed, m.reader.sawEof, m.reader.sawCancel)
       == (q.reader.bytes, q.reader.truncated, q.reader.consumed, q.reader.sawEof, q.reader.sawCancel)
  }

  lemma ObserveIgnoresTee(m: Machine, q: Machine, cancelled: bool)
    requires SameCapture(m, q) && Enabled(m, Observe(cancelled))
    ensures SameCapture(StepObserve(m, cancelled), StepObserve(q, cancelled))
  {
  }

  lemma ReadyIgnoresTee(m: Machine, q: Machine, readiness: Readiness)
    requires SameCapture(m, q) && m.reader.pc.AwaitReady?
    ensures SameCapture(StepReady(m, readiness), StepReady(q, readiness))
  {
  }

  lemma AnswerIgnoresTee(o: Options, m: Machine, q: Machine, ready: nat, result: Result<seq<Byte>, IoError>)
    requires SameCapture(m, q) && m.reader.pc.Reading?
    ensures SameCapture(GotAnswer(o, m, ready, result), GotAnswer(o, q, ready, result))
  {
  }

  lemma ReadIgnoresTee(o: Options, m: Machine, q: Machine, ready: nat, answer: Result<seq<Byte>, IoError>)
    requires SameCapture(m, q) && m.reader.pc.Reading?
    ensures SameCapture(StepRead(o, m, ready, answer), StepRead(o, q, ready, answer))
  {
    match m.account {
      case NoBudget => AnswerIgnoresTee(o, m, q, ready, answer);
      case Budget(l, s, b) =>
        AnswerIgnoresTee(o, m, q, ready, AfterReadReady(l, b, s, CHUNK_SIZE, ready, answer).1);
    }
  }

  lemma InternalIgnoresTee(o: Options, m: Machine, q: Machine)
    requires SameCapture(m, q) && Enabled(m, Internal)
    ensures SameCapture(Step(o, m, Internal), Step(o, q, Internal))
  {
  }

  lemma StepIgnoresTee(o: Options, m: Machine, q: Machine, e: Event)
    requires SameCapture(m, q)
    ensures SameCapture(Step(o, m, e), Step(o, q, Muted(e)))
  {
    if Enabled(m, e) {
      match e {
        case Observe(cancelled) => ObserveIgnoresTee(m, q, cancelled);
        case Ready(readiness) => ReadyIgnoresTee(m, q, readiness);
        case Answered(answer) => ReadIgnoresTee(o, m, q, m.reader.pc.ready, answer);
        case TeeWrite(_, _) =>
        case Flush(_) =>
        case Internal => InternalIgnoresTee(o, m, q);
      }
    }
  }

  /** Draining, retention, completeness and budget charging are the same as with
      a tee that never fails: a tee failure cannot stop or change the capture. */
  lemma {:induction false} TeeFailureNeverStopsDraining(o: Options, m: Machine, events: seq<Event>)
    ensures SameCapture(Run(o, m, events), Run(o, m, MutedAll(events)))
  {
    if events == [] {
    } else {
      var before, last := events[..|events| - 1], events[|events| - 1];
      TeeFailureNeverStopsDraining(o, m, before);
      assert MutedAll(events)[..|events| - 1] == MutedAll(before);
      StepIgnoresTee(o, Run(o, m, before), Run(o, m, MutedAll(before)), last);
    }
  }

  // ---------------------------------------------------------------------
  // The loop

  /** A tee destination; a failing write may leave part of the chunk behind. */
  class TeeWriter {
    var content: seq<Byte>

    constructor ()
      ensures content == []
    {
      content := [];
    }

    method WriteAll(chunk: seq<Byte>) returns (error: Option<IoError>, written: nat)
      modifies this
      ensures written <= |chunk| && (error.None? ==> written == |chunk|)
      ensures content == old(content) + chunk[..written]
    {
      error := *;
      written :| 0 <= written <= |chunk| && (error.None? ==> written == |chunk|);
      content := content + chunk[..written];
    }
  }

  /** All bytes a pipe script delivers. */
  function Data(script: seq<PipeEvent>): seq<Byte> {
    if script == [] then []
    else (if script[0].Chunk? then script[0].bytes else []) + Data(script[1..])
  }

  lemma ReadTakesFromData(script: seq<PipeEvent>, max: nat)
    ensures Data(script) == (if Answer(script, max).Ok? then Answer(script, max).value else [])
      + Data(Rest(script, max))
    ensures script == [] ==> Answer(script, max).Ok? && Answer(script, max).value == []
  {
    if script != [] && script[0].Chunk? {
      var bytes, later := script[0].bytes, Data(script[1..]);
      if max < |bytes| {
        var rest := Rest(script, max);
        assert rest[0] == Chunk(bytes[max..]) && rest[1..] == script[1..];
        assert Data(rest) == bytes[max..] + later;
        assert bytes[..max] + (bytes[max..] + later) == bytes + later;
      } else {
        assert bytes[..|bytes|] == bytes;
      }
      hide Data;
    }
  }

  /** No chunk is empty, so that only the end of the script reads as end of file. */
  ghost predicate NoEmptyChunks(script: seq<PipeEvent>) {
    forall e :: e in script && e.Chunk? ==> e.bytes != []
  }

  lemma ReadKeepsNoEmptyChunks(script: seq<PipeEvent>, max: nat)
    requires NoEmptyChunks(script) && max > 0
    ensures NoEmptyChunks(Rest(script, max))
    ensures Answer(script, max).Ok? && Answer(script, max).value == [] ==> script == []
    ensures script == [] ==> Rest(script, max) == []
  {
  }

  /** The state of one call of the reader loop; the ghost fields record the run
      of the step machine that the loop performs. */
  class OutputDrain {
    const pipe: PipeReader
    const writer: TeeWriter
    const options: Options
    const budget: TotalOutputBudget?
    const stream: Stream
    var bytes: seq<Byte>
    var truncated: bool
    var tee: Option<Path>
    var writeError: Option<TeeFailure>
    ghost const start: Machine
    ghost const data: seq<Byte>
    /** No read returns nothing before the pipe is exhausted. */
    ghost const honest: bool
    ghost var trace: seq<Event>
    ghost var machine: Machine

    ghost function Books(): Account
      reads budget
    {
      if budget == null then NoBudget else Budget(budget.limits, stream, budget.State())
    }

    /** The loop is at `pc`, and got there by the recorded run. */
    ghost predicate At(pc: Pc)
      reads this, pipe, writer, budget
    {
      var r := machine.reader;
      && r.pc == pc
      && (r.bytes, r.truncated, r.tee, r.writeError) == (bytes, truncated, tee, writeError)
      && r.teeContent == writer.content
      && machine.account == Books()
      && machine == Run(options, start, trace)
      && data == r.consumed + Data(pipe.script)
      && Exhausted(r.sawEof)
    }

    /** On an honest pipe an end of file seen by a read means that the pipe is
        exhausted; one reported by the wait is taken on trust. */
    ghost predicate Exhausted(sawEof: bool)
      reads this, pipe
    {
      honest ==> NoEmptyChunks(pipe.script) && (sawEof && Ready(PeekEof) !in trace ==> pipe.script == [])
    }

    constructor (pipe: PipeReader, writer: TeeWriter, options: Options, budget: TotalOutputBudget?, stream: Stream)
      requires writer.content == []
      ensures this.pipe == pipe && this.writer == writer && this.options == options
      ensures this.budget == budget && this.stream == stream
      ensures At(Top) && start == Machine(StartReader(options), Books()) && data == Data(pipe.script)
      ensures honest <==> NoEmptyChunks(pipe.script)
    {
      this.pipe, this.writer, this.options := pipe, writer, options;
      this.budget, this.stream := budget, stream;
      bytes, truncated, tee, writeError := [], false, options.tee, None;
      trace := [];
      start := Machine(StartReader(options),
        if budget == null then NoBudget else Budget(budget.limits, stream, budget.State()));
      machine := Machine(StartReader(options),
        if budget == null then NoBudget else Budget(budget.limits, stream, budget.State()));
      data := Data(pipe.script);
      honest := NoEmptyChunks(pipe.script);
    }

    ghost method Note(e: Event)
      requires machine == Run(options, start, trace)
      modifies this`trace, this`machine
      ensures machine == Step(options, old(machine), e) == Run(options, start, trace)
      ensures Ready(PeekEof) in trace <==> Ready(PeekEof) in old(trace) || e == Ready(PeekEof)
    {
      RunExtends(options, start, trace, e);
      trace := trace + [e];
      machine := Step(options, machine, e);
    }

    ghost method NoteRead(ready: nat, answer: Result<seq<Byte>, IoError>)
      requires machine == Run(options, start, trace) && machine.reader.pc == Reading(ready)
      requires answer.Ok? ==> |answer.value| <= Asked(machine.account, ready)
      modifies this`trace, this`machine
      ensures machine == StepRead(options, old(machine), ready, answer) == Run(options, start, trace)
      ensures Ready(PeekEof) in trace <==> Ready(PeekEof) in old(trace)
    {
      Note(Answered(answer));
    }

    /** Loads the cancellation flag, which another thread may set at any time. */
    method IsCancelled(ghost pc: Pc) returns (cancelled: bool)
      requires At(pc) && (pc.Top? || pc.Blocked? || pc.Failed? || pc.HaveChunk?)
      modifies this`trace, this`machine
      ensures machine == StepObserve(old(machine), cancelled)
      ensures At(machine.reader.pc)
    {
      cancelled := *;
      Note(Observe(cancelled));
    }

    /** Waits for the pipe; only a budgeted reader sees end of file while waiting. */
    method WaitReady() returns (readiness: Readiness)
      requires At(AwaitReady)
      modifies this`trace, this`machine
      ensures machine == StepReady(old(machine), readiness)
      ensures At(machine.reader.pc)
      ensures readiness.Readable? ==> readiness.available > 0
    {
      readiness :| (readiness.Readable? ==> readiness.available > 0) && (readiness.PeekEof? ==> budget != null);
      Note(Ready(readiness));
    }

    /** One read of a full buffer, seen as progress through the pipe's data. */
    method ReadPipe() returns (result: Result<seq<Byte>, IoError>)
      modifies pipe
      ensures result.Ok? ==> |result.value| <= CHUNK_SIZE
      ensures Data(old(pipe.script)) == (if result.Ok? then result.value else []) + Data(pipe.script)
      ensures result.Err? || result.value != [] ==> Length(pipe.script) < Length(old(pipe.script))
      ensures old(Exhausted(machine.reader.sawEof)) ==>
        Exhausted(machine.reader.sawEof || (result.Ok? && result.value == []))
    {
      hide Data, Length, Rest, Answer, NoEmptyChunks;
      ReadTakesFromData(pipe.script, CHUNK_SIZE);
      if NoEmptyChunks(pipe.script) {
        ReadKeepsNoEmptyChunks(pipe.script, CHUNK_SIZE);
      }
      if pipe.script != [] {
        ReadingShortens(pipe.script, CHUNK_SIZE);
      }
      result := pipe.Read(CHUNK_SIZE);
    }

    /** The read of an unbudgeted reader: the bytes are kept here. */
    method ReadLocal(ready: nat) returns (result: Result<seq<Byte>, IoError>)
      requires At(Reading(ready)) && budget == null
      modifies this, pipe
      ensures machine == GotAnswer(options, old(machine), ready, result)
      ensures At(machine.reader.pc)
      ensures result.Err? || result.value != [] ==> Length(pipe.script) < Length(old(pipe.script))
    {
      hide KeepBytes, Drops, Data, Length, NoEmptyChunks, Run;
      result := ReadPipe();
      NoteRead(ready, result);
      if result.Ok? && result.value != [] {
        assert data == (old(machine).reader.consumed + result.value) + Data(pipe.script);
        truncated := truncated || Drops(bytes, result.value, options.cap);
        bytes := KeepBytes(bytes, result.value, options.cap);
      }
    }

    /** The read of a budgeted reader: the bytes are kept by the budget. */
    method ReadCharged(ready: nat) returns (result: Result<seq<Byte>, IoError>)
      requires At(Reading(ready)) && budget != null
      modifies this`trace, this`machine, pipe, budget
      ensures machine.reader == GotAnswer(options, old(machine), ready, result).reader
      ensures At(machine.reader.pc)
      ensures result.Err? || result.value != [] ==> Length(pipe.script) < Length(old(pipe.script))
    {
      hide AfterReadReady, Data, Length, Rest;
      ghost var asked := Asked(machine.account, ready);
      ghost var answer := Answer(pipe.script, asked);
      ReadReturnsAnswer(budget.limits, budget.State(), stream, CHUNK_SIZE, ready, answer);
      ReadTakesFromData(pipe.script, asked);
      if NoEmptyChunks(pipe.script) && asked > 0 {
        ReadKeepsNoEmptyChunks(pipe.script, asked);
      }
      if pipe.script != [] && asked > 0 {
        ReadingShortens(pipe.script, asked);
      }
      result := budget.ReadReady(pipe, CHUNK_SIZE, ready, stream);
      NoteRead(ready, answer);
    }

    /** Marks the stream complete after its pipe reported end of file. */
    method MarkComplete()
      requires At(Marking)
      modifies this`trace, this`machine, budget
      ensures At(Leaving(AtEof)) && machine == Step(options, old(machine), Internal)
      ensures pipe.script == old(pipe.script)
    {
      if budget != null {
        budget.MarkComplete(stream);
      }
      Note(Internal);
    }

    /** Tells "the pipe ended" from "the other stream halted the budget", and marks
        only the former complete. */
    method ClassifyZero() returns (stop: Stop)
      requires At(ZeroSeen)
      modifies this`trace, this`machine, budget
      ensures At(Leaving(stop))
      ensures stop == if Halted(old(machine).account) then Stopped else AtEof
      ensures var asked := Step(options, old(machine), Internal);
        machine == if stop.Stopped? then asked else Step(options, asked, Internal)
    {
      if budget != null {
        var halted := budget.IsHalted();
        Note(Internal);
        if halted {
          return Stopped;
        }
      } else {
        Note(Internal);
      }
      MarkComplete();
      return AtEof;
    }

    method ClassifyError(error: IoError) returns (next: Option<Stop>)
      requires !error.kind.Interrupted?
      requires At(if error.kind.WouldBlock? then Blocked else Failed(error))
      modifies this`trace, this`machine
      ensures At(if next.Some? then Leaving(next.value) else Top)
      ensures next == Some(Stopped) || next == if error.kind.WouldBlock? then None else Some(Broken(error))
      ensures machine == StepObserve(old(machine), next == Some(Stopped))
    {
      if error.kind.WouldBlock? {
        var cancelled := IsCancelled(Blocked);
        return if cancelled then Some(Stopped) else None;
      }
      var cancelled := IsCancelled(Failed(error));
      return Some(if cancelled then Stopped else Broken(error));
    }

    /** Copies the chunk to the tee; the first failure closes the tee for good. */
    method WriteTee(chunk: seq<Byte>) returns (ghost error: Option<IoError>, ghost written: nat)
      requires At(Teeing(chunk))
      modifies this`tee, this`writeError, this`trace, this`machine, writer
      ensures At(Asking)
      ensures written <= |chunk| && machine == StepTee(old(machine), chunk, error, written)
      ensures old(tee).None? ==> (tee, writeError, writer.content) == old((tee, writeError, writer.content))
      ensures old(tee).Some? && error.None? ==>
        tee == old(tee) && writeError == old(writeError) && writer.content == old(writer.content) + chunk
      ensures old(tee).Some? && error.Some? ==>
        && tee == None && writeError == Some(TeeFailure(old(tee).value, error.value))
        && writer.content == old(writer.content) + chunk[..written]
    {
      error, written := None, 0;
      if tee.Some? {
        var fault, count := writer.WriteAll(chunk);
        error, written := fault, count;
        Note(TeeWrite(error, written));
        if fault.Some? {
          writeError := Some(TeeFailure(tee.value, fault.value));
          tee := None;
        }
      } else {
        Note(TeeWrite(None, 0));
      }
    }

    method HandleChunk(chunk: seq<Byte>) returns (next: Option<Stop>)
      requires At(HaveChunk(chunk))
      modifies this, writer
      ensures At(if next.Some? then Leaving(next.value) else Top)
    {
      var cancelled := IsCancelled(HaveChunk(chunk));
      if cancelled {
        return Some(Stopped);
      }
      ghost var error, written := WriteTee(chunk);
      next := AskExceeded();
    }

    method AskExceeded() returns (next: Option<Stop>)
      requires At(Asking)
      modifies this`trace, this`machine
      ensures At(if next.Some? then Leaving(next.value) else Top)
    {
      next := None;
      if budget != null {
        var exceeded := budget.IsExceeded();
        if exceeded.Some? {
          next := Some(Stopped);
        }
      }
      Note(Internal);
    }

    /** One turn of the loop. */
    method Turn() returns (next: Option<Stop>)
      requires At(Top)
      modifies this, pipe, writer, budget
      ensures At(if next.Some? then Leaving(next.value) else Top)
      ensures next.None? ==> Length(pipe.script) < Length(old(pipe.script))
    {
      var cancelled := IsCancelled(Top);
      if cancelled {
        return Some(Stopped);
      }
      var readiness := WaitReady();
      match readiness {
        case Readable(available) => next := ReadAndHandle(available);
        case PeekEof =>
          MarkComplete();
          next := Some(AtEof);
        case WaitCancelled => next := Some(Stopped);
        case WaitFailed(error) => next := Some(Broken(error));
      }
    }

    method ReadAndHandle(ready: nat) returns (next: Option<Stop>)
      requires At(Reading(ready))
      modifies this, pipe, writer, budget
      ensures At(if next.Some? then Leaving(next.value) else Top)
      ensures next.None? ==> Length(pipe.script) < Length(old(pipe.script))
    {
      var result;
      if budget != null {
        result := ReadCharged(ready);
      } else {
        result := ReadLocal(ready);
      }
      match result {
        case Err(error) =>
          if error.kind.Interrupted? {
            return None;
          }
          next := ClassifyError(error);
        case Ok(chunk) =>
          if chunk == [] {
            var stop := ClassifyZero();
            next := Some(stop);
          } else {
            next := HandleChunk(chunk);
          }
      }
    }

    /** Flushes a healthy tee at end of file. */
    method FlushTee(stop: Stop)
      requires At(Leaving(stop))
      modifies this`writeError, this`trace, this`machine
      ensures At(Reporting(stop))
    {
      var error: Option<IoError> := *;
      Note(Flush(error));
      if stop.AtEof? && tee.Some? && error.Some? {
        writeError := Some(TeeFailure(tee.value, error.value));
      }
    }

    method BuildResult(stop: Stop) returns (result: CaptureResult)
      requires At(Reporting(stop))
      modifies this`trace, this`machine
      ensures At(Finished(stop, result))
    {
      var output := CapturedOutput(bytes, truncated, stop.AtEof?);
      if budget != null {
        output := budget.CapturedStreamMetadata(stream);
      }
      result := Report(writeError, stop, output);
      Note(Internal);
    }

    method Drain() returns (stop: Stop)
      requires At(Top)
      modifies this, pipe, writer, budget
      ensures At(Leaving(stop))
    {
      while true
        invariant At(Top)
        decreases Length(pipe.script)
      {
        var next := Turn();
        if next.Some? {
          return next.value;
        }
      }
    }

    /** `read_output_inner`: ends, and is a run of the step machine from the start
        state, so whatever holds of every run holds of every call.  A budgeted
        reader must be the first and only reader of its stream.  In both modes, end
        of file decided by a read of an honest pipe means that all of it was taken. */
    method ReadOutputInner() returns (stop: Stop, result: CaptureResult)
      requires At(Top) && start.reader == StartReader(options)
      requires FreshAccount(start.account)
      modifies this, pipe, writer, budget
      ensures At(Finished(stop, result))
      ensures result == Report(writeError, stop, Delivered(options, start.account, machine.reader.consumed, stop))
      ensures writer.content <= machine.reader.consumed <= data
      ensures stop.AtEof? && options.tee.Some? && writeError.None? ==> writer.content == machine.reader.consumed
      ensures honest && stop.AtEof? && Ready(PeekEof) !in trace ==> machine.reader.consumed == data
    {
      stop := Drain();
      FlushTee(stop);
      result := BuildResult(stop);
      EveryCollectorRun(options, start.account, trace);
      assert start == Machine(StartReader(options), start.account);
      hide Balanced, Capture, Report, Run;
    }
  }
}
