/** What a reader reports, said about what it met: the answers of its pipe, its tee,
    the cancellation flag and the budget, in every run and every interleaving
    (`src/command_runner/internal/output_collector.rs`). */
module ReaderReports {
  import opened Basics
  import opened CommandErrors
  import opened OutputBudget
  import opened OutputCollector
  import opened OutputReaders
  import opened CommandIo
  import opened RunMachine
  import opened RunTheorems

  /** One step of a reader: the state it was in and the outcome it met. */
  datatype Visit = Visit(machine: Machine, event: Event)

  // ---------------------------------------------------------------------
  // What was met

  /** A write to the tee, or its flush at end of file, that failed. */
  function TeeErrorAt(o: Options, v: Visit): Option<IoError> {
    if o.tee.None? then None
    else match (v.machine.reader.pc, v.event)
      case (Teeing(chunk), TeeWrite(error, written)) => if written <= |chunk| then error else None
      case (Leaving(AtEof), Flush(error)) => error
      case _ => None
  }

  /** The first one; later ones cannot happen, because the tee is given up. */
  function FirstTeeError(o: Options, h: seq<Visit>): (error: Option<IoError>)
    ensures error.Some? ==> o.tee.Some?
  {
    if h == [] then None
    else
      var first := FirstTeeError(o, h[..|h| - 1]);
      if first.Some? then first else TeeErrorAt(o, h[|h| - 1])
  }

  /** How a step settles the end of the loop, if it does. */
  function SettledAt(v: Visit): Option<Stop> {
    match (v.machine.reader.pc, v.event)
    case (Top, Observe(true)) => Some(Stopped)
    case (Blocked, Observe(true)) => Some(Stopped)
    case (HaveChunk(_), Observe(true)) => Some(Stopped)
    case (Failed(_), Observe(true)) => Some(Stopped)
    case (Failed(e), Observe(false)) => Some(Broken(e))
    case (AwaitReady, Ready(WaitCancelled)) => Some(Stopped)
    case (AwaitReady, Ready(WaitFailed(e))) => Some(Broken(e))
    case (AwaitReady, Ready(PeekEof)) => if v.machine.account.Budget? then Some(AtEof) else None
    case (ZeroSeen, Internal) => Some(if Halted(v.machine.account) then Stopped else AtEof)
    case (Asking, Internal) =>
      if v.machine.account.Budget? && v.machine.account.ledger.exceeded then Some(Stopped) else None
    case _ => None
  }

  function Settled(h: seq<Visit>): Option<Stop> {
    if h == [] then None
    else
      var sofar := Settled(h[..|h| - 1]);
      if sofar.Some? then sofar else SettledAt(h[|h| - 1])
  }

  /** The pipe was asked and answered with an error that is not a mere retry. */
  function PipeErrorAt(v: Visit): Option<IoError> {
    match (v.machine.reader.pc, v.event)
    case (Reading(ready), Answered(Err(e))) =>
      if Asked(v.machine.account, ready) > 0 && !e.kind.Interrupted? && !e.kind.WouldBlock? then Some(e) else None
    case _ => None
  }

  function PipeError(h: seq<Visit>): Option<IoError> {
    if h == [] then None
    else
      var sofar := PipeError(h[..|h| - 1]);
      if sofar.Some? then sofar else PipeErrorAt(h[|h| - 1])
  }

  predicate WaitFailedWith(h: seq<Visit>, e: IoError) {
    exists v :: v in h && v.machine.reader.pc.AwaitReady? && v.event == Ready(Readiness.WaitFailed(e))
  }

  predicate CancelledAfter(h: seq<Visit>, e: IoError) {
    exists v :: v in h && v.machine.reader.pc == Failed(e) && v.event == Observe(true)
  }

  // ---------------------------------------------------------------------
  // What the reader knows of it

  function WayOf(pc: Pc): Option<Stop> {
    if pc.Marking? then Some(AtEof) else Left(pc)
  }

  /** The reader's state tells exactly what it met. */
  ghost predicate Tells(o: Options, h: seq<Visit>, r: Reader) {
    && r.writeError == (var e := FirstTeeError(o, h); if e.Some? then Some(TeeFailure(o.tee.value, e.value)) else None)
    && WayOf(r.pc) == Settled(h)
    && PipeErrorIsTold(h, r)
  }

  /** A pipe error is about to be, or was, reported, unless a cancellation was
      observed in its place; and only a pipe or its wait breaks a reader. */
  ghost predicate PipeErrorIsTold(h: seq<Visit>, r: Reader) {
    && (r.pc.Failed? ==> PipeError(h) == Some(r.pc.error))
    && (forall e :: PipeError(h) == Some(e) ==>
          r.pc == Failed(e) || Settled(h) == Some(Broken(e)) || (Settled(h) == Some(Stopped) && CancelledAfter(h, e)))
    && (forall e :: Settled(h) == Some(Broken(e)) ==> PipeError(h) == Some(e) || WaitFailedWith(h, e))
  }

  lemma StartTells(o: Options)
    ensures Tells(o, [], StartReader(o))
  {
  }

  lemma StepKeepsTeeError(o: Options, m: Machine, e: Event)
    requires TeeOk(o, m.reader)
    ensures var error := TeeErrorAt(o, Visit(m, e));
      Step(o, m, e).reader.writeError
      == if m.reader.writeError.Some? then m.reader.writeError
         else if error.Some? then Some(TeeFailure(o.tee.value, error.value)) else None
  {
    hide StepRead, Report, Snapshot;
    if m.reader.pc.Reading? && e.Answered? {
      ReadKeepsTeeError(o, m, m.reader.pc.ready, e.answer);
    }
  }

  lemma ReadKeepsTeeError(o: Options, m: Machine, ready: nat, answer: Result<seq<Byte>, IoError>)
    ensures StepRead(o, m, ready, answer).reader.writeError == m.reader.writeError
    ensures WayOf(StepRead(o, m, ready, answer).reader.pc) == None
  {
    hide AfterReadReady, KeepBytes, Drops, Asked;
  }

  lemma StepSettles(o: Options, m: Machine, e: Event)
    ensures WayOf(Step(o, m, e).reader.pc)
            == if WayOf(m.reader.pc).Some? then WayOf(m.reader.pc) else SettledAt(Visit(m, e))
  {
    hide StepRead, Report, Snapshot, AfterMarkComplete;
    if m.reader.pc.Reading? && e.Answered? {
      ReadKeepsTeeError(o, m, m.reader.pc.ready, e.answer);
    }
  }

  lemma ReadMeetsError(o: Options, m: Machine, ready: nat, answer: Result<seq<Byte>, IoError>)
    requires m.reader.pc == Reading(ready)
    ensures var pc := StepRead(o, m, ready, answer).reader.pc;
      if pc.Failed? then PipeErrorAt(Visit(m, Answered(answer))) == Some(pc.error)
      else PipeErrorAt(Visit(m, Answered(answer))) == None
  {
    if m.account.Budget? {
      ReadReturnsAnswer(m.account.limits, m.account.ledger, m.account.stream, CHUNK_SIZE, ready, answer);
    }
    hide AfterReadReady, KeepBytes, Drops, PipeRequest;
  }

  /** A step into, out of, or without a pipe error. */
  lemma StepMeetsError(o: Options, m: Machine, e: Event)
    ensures var error, pc := PipeErrorAt(Visit(m, e)), Step(o, m, e).reader.pc;
      && (error.Some? ==> pc == Failed(error.value) && WayOf(m.reader.pc) == None)
      && (pc.Failed? ==> pc == m.reader.pc || error == Some(pc.error))
      && (m.reader.pc.Failed? && pc != m.reader.pc ==>
            e.Observe? && pc == Leaving(if e.cancelled then Stopped else Broken(m.reader.pc.error)))
  {
    hide StepRead, Report, Snapshot, AfterMarkComplete, Asked;
    if m.reader.pc.Reading? && e.Answered? {
      ReadErrorIsEnabled(m, e);
      if Enabled(m, e) {
        ReadMeetsError(o, m, m.reader.pc.ready, e.answer);
      }
    }
  }

  lemma ReadErrorIsEnabled(m: Machine, e: Event)
    requires m.reader.pc.Reading? && e.Answered?
    ensures e.answer.Err? ==> Enabled(m, e)
  {
    hide Asked;
  }

  lemma StepTells(o: Options, h: seq<Visit>, m: Machine, e: Event)
    requires Tells(o, h, m.reader) && MachineOk(o, m)
    ensures Tells(o, h + [Visit(m, e)], Step(o, m, e).reader)
  {
    var next := h + [Visit(m, e)];
    assert next[..|next| - 1] == h;
    StepKeepsTeeError(o, m, e);
    StepSettles(o, m, e);
    hide Step, TeeErrorAt, SettledAt, PipeErrorAt, MachineOk;
    PipeErrorStaysTold(o, h, m, e);
  }

  lemma PipeErrorStaysTold(o: Options, h: seq<Visit>, m: Machine, e: Event)
    requires Tells(o, h, m.reader)
    requires WayOf(Step(o, m, e).reader.pc) == Settled(h + [Visit(m, e)])
    ensures PipeErrorIsTold(h + [Visit(m, e)], Step(o, m, e).reader)
  {
    var v := Visit(m, e);
    var next := h + [v];
    assert next[..|next| - 1] == h && next[|next| - 1] == v;
    StepMeetsError(o, m, e);
    assert v in next && forall x :: x in h ==> x in next;
    assert forall x :: CancelledAfter(h, x) ==> CancelledAfter(next, x);
    assert forall x :: WaitFailedWith(h, x) ==> WaitFailedWith(next, x);
    forall x | Settled(next) == Some(Broken(x))
      ensures PipeError(next) == Some(x) || WaitFailedWith(next, x)
    {
      if Settled(h).None? {
        assert SettledAt(v) == Some(Broken(x));
        assert m.reader.pc == Failed(x) || WaitFailedWith(next, x);
      }
    }
    hide Step, PipeErrorAt, SettledAt;
  }

  // ---------------------------------------------------------------------
  // A reader alone

  function VisitsOf(o: Options, m: Machine, events: seq<Event>): seq<Visit> {
    if events == [] then []
    else
      var n := |events| - 1;
      VisitsOf(o, m, events[..n]) + [Visit(Run(o, m, events[..n]), events[n])]
  }

  lemma {:induction false} RunTells(o: Options, a: Account, events: seq<Event>)
    requires FreshAccount(a)
    ensures var m := Machine(StartReader(o), a);
      Tells(o, VisitsOf(o, m, events), Run(o, m, events).reader) && MachineOk(o, Run(o, m, events))
  {
    hide Step, MachineOk, Tells, FreshAccount;
    var m := Machine(StartReader(o), a);
    StartOk(o, a);
    RunKeepsOk(o, m, events);
    if events == [] {
      StartTells(o);
    } else {
      var n := |events| - 1;
      RunTells(o, a, events[..n]);
      StepTells(o, VisitsOf(o, m, events[..n]), Run(o, m, events[..n]), events[n]);
    }
  }

  /** A result that names exactly what failed, and how. */
  predicate ResultTells(tee: Option<Path>, teeError: Option<IoError>, way: Stop, result: CaptureResult) {
    match result
    case Ok(_) => teeError.None? && !way.Broken?
    case Err(ReadError(e, _)) => teeError.None? && way == Broken(e)
    case Err(WriteError(path, w, _)) => tee == Some(path) && teeError == Some(w) && !way.Broken?
    case Err(ReadAfterWrite(path, w, e, _)) => tee == Some(path) && teeError == Some(w) && way == Broken(e)
  }

  lemma ReportTells(o: Options, teeError: Option<IoError>, way: Stop, output: CapturedOutput)
    requires teeError.Some? ==> o.tee.Some?
    ensures var failure := if teeError.Some? then Some(TeeFailure(o.tee.value, teeError.value)) else None;
      ResultTells(o.tee, teeError, way, Report(failure, way, output))
  {
  }

  /** The result of every finished reader is the first failure of its tee, writes and
      final flush alike, and the pipe failure that ended it, if there was one: nothing
      is dropped and nothing is invented.  A pipe error is reported unless a
      cancellation was observed in its place. */
  lemma ResultTellsRun(o: Options, a: Account, events: seq<Event>)
    requires FreshAccount(a) && Run(o, Machine(StartReader(o), a), events).reader.pc.Finished?
    ensures var m := Machine(StartReader(o), a);
      var h, pc := VisitsOf(o, m, events), Run(o, m, events).reader.pc;
      && Settled(h) == Some(pc.stop)
      && ResultTells(o.tee, FirstTeeError(o, h), pc.stop, pc.result)
      && (pc.result.Ok? <==> FirstTeeError(o, h).None? && !pc.stop.Broken?)
      && (forall e :: PipeError(h) == Some(e) ==> pc.stop == Broken(e) || (pc.stop.Stopped? && CancelledAfter(h, e)))
      && (forall e :: pc.stop == Broken(e) ==> PipeError(h) == Some(e) || WaitFailedWith(h, e))
  {
    hide Run, VisitsOf, FirstTeeError, Settled, PipeError, CancelledAfter, WaitFailedWith;
    var m := Machine(StartReader(o), a);
    RunTells(o, a, events);
    EveryCollectorRun(o, a, events);
    var r := Run(o, m, events).reader;
    ReportTells(o, FirstTeeError(o, VisitsOf(o, m, events)), r.pc.stop,
      Delivered(o, Run(o, m, events).account, r.consumed, r.pc.stop));
    hide MachineOk, FreshAccount, Delivered, Report;
  }

  // ---------------------------------------------------------------------
  // A reader in a whole run

  function VisitsIn(c: Config, schedule: seq<Label>, s: Stream): seq<Visit> {
    if schedule == [] then []
    else
      var n := |schedule| - 1;
      var st := Execute(c, schedule[..n]);
      VisitsIn(c, schedule[..n], s)
        + (if Moves(st, s, schedule[n]) then [Visit(st.MachineOf(s), schedule[n].event)] else [])
  }

  lemma {:induction false} ExecuteTells(c: Config, schedule: seq<Label>, s: Stream)
    ensures Tells(c.OptionsOf(s), VisitsIn(c, schedule, s), Execute(c, schedule).Get(s).reader)
  {
    hide Tells, Apply, Moves, StateOk;
    if schedule == [] {
      StartTells(c.OptionsOf(s));
    } else {
      var n := |schedule| - 1;
      ExecuteTells(c, schedule[..n], s);
      EveryReachableStateOk(c, schedule[..n]);
      MoveTells(Execute(c, schedule[..n]), s, schedule[n], VisitsIn(c, schedule[..n], s));
      hide VisitsOf;
    }
  }

  lemma MoveTells(st: RunState, s: Stream, move: Label, h: seq<Visit>)
    requires StateOk(st) && Tells(st.config.OptionsOf(s), h, st.Get(s).reader)
    ensures Tells(st.config.OptionsOf(s), h + (if Moves(st, s, move) then [Visit(st.MachineOf(s), move.event)] else []),
              Apply(st, move).Get(s).reader)
  {
    hide Step, Tells, PcOk, Enabled, EndOk, MachineOk;
    if Moves(st, s, move) {
      StepTells(st.config.OptionsOf(s), h, st.MachineOf(s), move.event);
    } else {
      assert h + [] == h;
      UnmovedReader(st, s, move);
      hide Apply;
    }
  }

  lemma UnmovedReader(st: RunState, s: Stream, move: Label)
    requires !Moves(st, s, move)
    ensures Apply(st, move).Get(s).reader == st.Get(s).reader
  {
    if move.ReaderMoves? && move.s == s {
      hide Enabled, Report, Snapshot;
    } else {
      IdleLane(st, s, move);
      hide Apply;
    }
  }

  /** The same in every interleaving with the peer and the runner. */
  lemma ResultTellsSchedule(c: Config, schedule: seq<Label>, s: Stream)
    requires Execute(c, schedule).Finished(s)
    ensures var h, pc := VisitsIn(c, schedule, s), Execute(c, schedule).Get(s).reader.pc;
      && Settled(h) == Some(pc.stop)
      && ResultTells(c.OptionsOf(s).tee, FirstTeeError(c.OptionsOf(s), h), pc.stop, pc.result)
      && (forall e :: PipeError(h) == Some(e) ==> pc.stop == Broken(e) || (pc.stop.Stopped? && CancelledAfter(h, e)))
      && (forall e :: pc.stop == Broken(e) ==> PipeError(h) == Some(e) || WaitFailedWith(h, e))
  {
    hide Execute, VisitsIn, FirstTeeError, Settled, PipeError, CancelledAfter, WaitFailedWith;
    ExecuteTells(c, schedule, s);
    EveryReachableStateOk(c, schedule);
    var st := Execute(c, schedule);
    FinishedReport(st, s);
    var pc := st.Get(s).reader.pc;
    ReportTells(c.OptionsOf(s), FirstTeeError(c.OptionsOf(s), VisitsIn(c, schedule, s)), pc.stop,
      CapturedOutput([], Overflows(st.Get(s).reader.consumed, c.limits.Cap(s)), pc.stop.AtEof?));
    hide StateOk, Report;
  }

  lemma FinishedReport(st: RunState, s: Stream)
    requires StateOk(st) && st.Finished(s)
    ensures var r := st.Get(s).reader;
      r.pc.result == Report(r.writeError, r.pc.stop,
        CapturedOutput([], Overflows(r.consumed, st.config.limits.Cap(s)), r.pc.stop.AtEof?))
  {
    hide PcOk, EndOk, Retained, Overflows, TeeOk, EofOk, CaptureOk;
  }

  /** From the tee and the pipe to the report of the run: the failures listed for a
      joined reader are the first tee failure and the pipe failure it met, in this
      order and under the stream's name, and nothing else. */
  lemma JoinedReaderReportsAll(c: Config, schedule: seq<Label>, s: Stream)
    requires HasJoined(Execute(c, schedule).Get(s))
    ensures var h, st := VisitsIn(c, schedule, s), Execute(c, schedule);
      var teeError, way := FirstTeeError(c.OptionsOf(s), h), Settled(h);
      && way.Some?
      && StreamFailures(s, st.Get(s).end.value.result)
         == (if teeError.None? then []
             else [if s.Stdout? then StdoutWrite(c.OptionsOf(s).tee.value, teeError.value)
                   else StderrWrite(c.OptionsOf(s).tee.value, teeError.value)])
            + (if !way.value.Broken? then []
               else [if s.Stdout? then StdoutRead(way.value.error) else StderrRead(way.value.error)])
  {
    hide Execute, VisitsIn, FirstTeeError, Settled, PipeError, CancelledAfter, WaitFailedWith;
    EveryReachableStateOk(c, schedule);
    var st := Execute(c, schedule);
    JoinedResult(st, s);
    ResultTellsSchedule(c, schedule, s);
    StreamFailuresTell(st.Get(s).end.value.result);
    hide StreamFailures, StateOk;
  }

  lemma JoinedResult(st: RunState, s: Stream)
    requires StateOk(st) && HasJoined(st.Get(s))
    ensures st.Finished(s)
    ensures exists output :: st.Get(s).end.value.result == ReplaceOutput(st.Get(s).reader.pc.result, output)
  {
    hide PcOk, MachineOk, Retained, Overflows, ReplaceOutput;
  }

  // ---------------------------------------------------------------------
  // Bytes

  /** The bytes that the pipe answered at one step. */
  function TakenAt(v: Visit): seq<Byte> {
    match (v.machine.reader.pc, v.event)
    case (Reading(ready), Answered(Ok(chunk))) => if |chunk| <= Asked(v.machine.account, ready) then chunk else []
    case _ => []
  }

  function Taken(h: seq<Visit>): seq<Byte> {
    if h == [] then [] else Taken(h[..|h| - 1]) + TakenAt(h[|h| - 1])
  }

  lemma StepTakes(o: Options, m: Machine, e: Event)
    ensures Step(o, m, e).reader.consumed == m.reader.consumed + TakenAt(Visit(m, e))
  {
    if m.reader.pc.Reading? && Enabled(m, e) {
      ReadTakes(o, m, m.reader.pc.ready, e.answer);
    }
    hide StepRead, Report, Snapshot, AfterMarkComplete, Asked;
  }

  lemma ReadTakes(o: Options, m: Machine, ready: nat, answer: Result<seq<Byte>, IoError>)
    requires m.reader.pc == Reading(ready) && Enabled(m, Answered(answer))
    ensures StepRead(o, m, ready, answer).reader.consumed == m.reader.consumed + TakenAt(Visit(m, Answered(answer)))
  {
    if m.account.Budget? {
      ReadReturnsAnswer(m.account.limits, m.account.ledger, m.account.stream, CHUNK_SIZE, ready, answer);
    }
    hide AfterReadReady, KeepBytes, Drops, PipeRequest;
  }

  /** What a reader is said to have consumed in a run is, byte for byte, what its pipe
      answered to it. */
  lemma {:induction false} ConsumedIsAnswered(c: Config, schedule: seq<Label>, s: Stream)
    ensures Execute(c, schedule).Get(s).reader.consumed == Taken(VisitsIn(c, schedule, s))
  {
    hide Apply, Moves, Step, TakenAt;
    if schedule == [] {
    } else {
      var n := |schedule| - 1;
      var st, move, sofar := Execute(c, schedule[..n]), schedule[n], VisitsIn(c, schedule[..n], s);
      ConsumedIsAnswered(c, schedule[..n], s);
      if Moves(st, s, move) {
        MovedReader(st, s, move);
        StepTakes(st.config.OptionsOf(s), st.MachineOf(s), move.event);
        assert (sofar + [Visit(st.MachineOf(s), move.event)])[..|sofar|] == sofar;
      } else {
        UnmovedReader(st, s, move);
        assert sofar + [] == sofar;
      }
    }
  }

  lemma MovedReader(st: RunState, s: Stream, move: Label)
    requires Moves(st, s, move)
    ensures move.ReaderMoves?
    ensures Apply(st, move).Get(s).reader == Step(st.config.OptionsOf(s), st.MachineOf(s), move.event).reader
  {
    hide Step, Enabled;
  }
}
