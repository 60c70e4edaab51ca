/** The byte budget shared by both output readers of a run
    (`src/command_runner/internal/total_output_budget.rs`).

    `Ledger` is what the mutex protects, seen as a value, together with one
    history variable per stream: `consumed`, every byte the budget ever took
    from that pipe.  Each function below is one critical section; the class
    performs the same critical sections on mutable fields. */
module OutputBudget {
  import opened Basics
  import opened Pipes

  const U64_MAX: nat := 0xFFFF_FFFF_FFFF_FFFF
  const USIZE_MAX: nat := U64_MAX
  const U128_MAX: nat := 0xFFFF_FFFF_FFFF_FFFF_FFFF_FFFF_FFFF_FFFF

  datatype LimitsRecord = LimitsRecord(limit: nat, maxStdout: Option<nat>, maxStderr: Option<nat>) {
    function Cap(s: Stream): Option<nat> {
      if s.Stdout? then maxStdout else maxStderr
    }

    /** The largest count the budget may reach: the limit and one sentinel byte. */
    function Ceiling(): nat {
      limit + 1
    }
  }

  type Limits = l: LimitsRecord | l.limit <= U64_MAX witness LimitsRecord(0, None, None)

  datatype Channel = Channel(
    bytes: seq<Byte>, truncated: bool, complete: bool, transferred: bool, consumed: seq<Byte>)

  datatype Ledger = Ledger(used: nat, exceeded: bool, halted: bool, stdout: Channel, stderr: Channel) {
    function Get(s: Stream): Channel {
      if s.Stdout? then stdout else stderr
    }

    function Put(s: Stream, c: Channel): Ledger {
      if s.Stdout? then this.(stdout := c) else this.(stderr := c)
    }

    function Consumed(): nat {
      |stdout.consumed| + |stderr.consumed|
    }
  }

  const EMPTY_CHANNEL := Channel([], false, false, false, [])
  const EMPTY_LEDGER := Ledger(0, false, false, EMPTY_CHANNEL, EMPTY_CHANNEL)

  // ---------------------------------------------------------------------
  // Critical sections

  function Remaining(l: Limits, b: Ledger): nat {
    SaturatingSub(l.Ceiling(), b.used)
  }

  /** How many bytes a reader asks the pipe for; zero means the pipe is not asked. */
  function PipeRequest(l: Limits, b: Ledger, buffer: nat, ready: nat): nat {
    if b.halted then 0 else Min(Min(buffer, ready), Min(Remaining(l, b), USIZE_MAX))
  }

  function Charge(l: Limits, b: Ledger, s: Stream, chunk: seq<Byte>): Ledger {
    var c := b.Get(s);
    var c' := c.(bytes := KeepBytes(c.bytes, chunk, l.Cap(s)),
                 truncated := c.truncated || Drops(c.bytes, chunk, l.Cap(s)),
                 consumed := c.consumed + chunk);
    var b' := b.Put(s, c').(used := b.used + |chunk|);
    if b'.used > l.limit then b'.(exceeded := true, halted := true) else b'
  }

  /** `read_ready`: what the pipe answers matters only when it is asked. */
  function AfterReadReady(l: Limits, b: Ledger, s: Stream, buffer: nat, ready: nat,
                     answer: Result<seq<Byte>, IoError>): (Ledger, Result<seq<Byte>, IoError>)
  {
    if b.halted then (b, Ok([]))
    else if Remaining(l, b) == 0 then (b.(exceeded := true, halted := true), Ok([]))
    else if PipeRequest(l, b, buffer, ready) == 0 then (b, Ok([]))
    else match answer
      case Err(e) => (b, Err(e))
      case Ok(chunk) => (Charge(l, b, s, chunk), Ok(chunk))
  }

  function AfterMarkComplete(b: Ledger, s: Stream): Ledger {
    b.Put(s, b.Get(s).(complete := true))
  }

  function Exceeded(l: Limits, b: Ledger): Option<(nat, nat)> {
    if b.exceeded then Some((l.limit, b.used)) else None
  }

  /** `captured_stream`: a copy that leaves the buffer in place. */
  function Snapshot(b: Ledger, s: Stream): CapturedOutput {
    var c := b.Get(s);
    CapturedOutput(c.bytes, c.truncated, c.complete)
  }

  /** `take_captured_stream`: the first take moves the buffer out, later ones get nothing. */
  function Take(b: Ledger, s: Stream): (Ledger, CapturedOutput) {
    var c := b.Get(s);
    if c.transferred then (b, CapturedOutput([], c.truncated, c.complete))
    else (b.Put(s, c.(bytes := [], transferred := true)), CapturedOutput(c.bytes, c.truncated, c.complete))
  }

  /** `captured_output_with_joined`, for one stream. */
  function WithJoined(b: Ledger, s: Stream, joined: Option<CapturedPair>): CapturedOutput {
    var c := b.Get(s);
    if !c.transferred then Snapshot(b, s)
    else match joined
      case Some(pair) => pair.Get(s)
      case None => CapturedOutput([], c.truncated, false)
  }

  // ---------------------------------------------------------------------
  // What every critical section keeps

  ghost predicate ChannelKept(c: Channel, cap: Option<nat>) {
    && c.bytes == (if c.transferred then [] else Retained(c.consumed, cap))
    && c.truncated == Overflows(c.consumed, cap)
  }

  /** Exact accounting: the counter is the number of bytes ever taken from both
      pipes, it never passes the sentinel, and the two stop flags mean precisely
      "the sentinel byte was taken". */
  ghost predicate Balanced(l: Limits, b: Ledger) {
    && b.used == b.Consumed() <= l.Ceiling()
    && (b.halted <==> b.used == l.Ceiling())
    && b.exceeded == b.halted
    && ChannelKept(b.stdout, l.maxStdout)
    && ChannelKept(b.stderr, l.maxStderr)
  }

  /** A reader is only ever refused by a halt: the "nothing remaining" and "empty
      request" branches are dead, and the request is the largest one that the buffer,
      the pipe and what is left of the budget allow. */
  lemma RunningRequestIsPositive(l: Limits, b: Ledger, buffer: nat, ready: nat)
    requires Balanced(l, b) && buffer > 0 && ready > 0
    ensures b.halted <==> PipeRequest(l, b, buffer, ready) == 0
    ensures !b.halted ==> Remaining(l, b) > 0
    ensures b.used + PipeRequest(l, b, buffer, ready) <= l.Ceiling()
    ensures PipeRequest(l, b, buffer, ready) <= buffer && PipeRequest(l, b, buffer, ready) <= ready
    ensures var request := PipeRequest(l, b, buffer, ready);
      !b.halted ==> request == buffer || request == ready || request == USIZE_MAX || b.used + request == l.Ceiling()
  {
  }

  /** A reader sees the pipe's own answer, or nothing when the pipe was not asked. */
  lemma ReadReturnsAnswer(l: Limits, b: Ledger, s: Stream, buffer: nat, ready: nat,
                          answer: Result<seq<Byte>, IoError>)
    ensures AfterReadReady(l, b, s, buffer, ready, answer).1
            == if PipeRequest(l, b, buffer, ready) == 0 then Ok([]) else answer
  {
  }

  /** Reading keeps the books balanced, and the 128-bit counter cannot wrap. */
  lemma ReadingBalances(l: Limits, b: Ledger, s: Stream, buffer: nat, ready: nat,
                        answer: Result<seq<Byte>, IoError>)
    requires Balanced(l, b) && !b.Get(s).transferred
    requires answer.Ok? ==> |answer.value| <= PipeRequest(l, b, buffer, ready)
    ensures Balanced(l, AfterReadReady(l, b, s, buffer, ready, answer).0)
    ensures AfterReadReady(l, b, s, buffer, ready, answer).0.used <= U128_MAX
  {
    if answer.Ok? {
      KeepingIsPrefixOfWhole(b.Get(s).consumed, answer.value, l.Cap(s));
    }
  }

  /** The first take hands over the whole retained prefix; a second one can
      never present bytes again, and no other stream is touched. */
  lemma TakeHandsOverOnce(l: Limits, b: Ledger, s: Stream)
    requires Balanced(l, b) && !b.Get(s).transferred
    ensures var (b', output) := Take(b, s);
      && output == Capture(b.Get(s).consumed, l.Cap(s), b.Get(s).complete)
      && Balanced(l, b')
      && b'.Get(s.Other()) == b.Get(s.Other())
      && Take(b', s) == (b', output.(bytes := []))
  {
  }

  // ---------------------------------------------------------------------
  // What running readers may do meanwhile

  /** A stream may gain bytes and completeness, but not after a halt and not once
      its reader is gone; nobody but the runner moves bytes out. */
  ghost predicate StreamAdvances(b: Ledger, b': Ledger, s: Stream, live: bool) {
    var c, c' := b.Get(s), b'.Get(s);
    && (!live || c.transferred ==> c' == c)
    && c.consumed <= c'.consumed
    && (b.halted ==> c'.consumed == c.consumed)
    && (c.complete ==> c'.complete)
    && c'.transferred == c.transferred
  }

  /** The ledger after any number of critical sections of the readers still alive. */
  ghost predicate Advances(l: Limits, b: Ledger, b': Ledger, stdoutLive: bool, stderrLive: bool) {
    && (Balanced(l, b) ==> Balanced(l, b'))
    && (b.halted ==> b'.halted)
    && StreamAdvances(b, b', Stdout, stdoutLive)
    && StreamAdvances(b, b', Stderr, stderrLive)
  }

  lemma AdvancesChain(l: Limits, a: Ledger, b: Ledger, c: Ledger, stdoutLive: bool, stderrLive: bool)
    requires Advances(l, a, b, stdoutLive, stderrLive) && Advances(l, b, c, stdoutLive, stderrLive)
    ensures Advances(l, a, c, stdoutLive, stderrLive)
  {
    hide Balanced;
  }

  lemma ReadingAdvances(l: Limits, b: Ledger, s: Stream, buffer: nat, ready: nat, answer: Result<seq<Byte>, IoError>)
    requires !b.Get(s).transferred
    requires answer.Ok? ==> |answer.value| <= PipeRequest(l, b, buffer, ready)
    ensures Advances(l, b, AfterReadReady(l, b, s, buffer, ready, answer).0, s.Stdout?, s.Stderr?)
  {
    if Balanced(l, b) {
      ReadingBalances(l, b, s, buffer, ready, answer);
    }
    hide Balanced, KeepBytes, Drops;
  }

  lemma MarkingAdvances(l: Limits, b: Ledger, s: Stream)
    requires !b.Get(s).transferred
    ensures Advances(l, b, AfterMarkComplete(b, s), s.Stdout?, s.Stderr?)
  {
  }

  lemma MoreLive(l: Limits, b: Ledger, b': Ledger, s: Stream, stdoutLive: bool, stderrLive: bool)
    requires Advances(l, b, b', s.Stdout?, s.Stderr?)
    requires if s.Stdout? then stdoutLive else stderrLive
    ensures Advances(l, b, b', stdoutLive, stderrLive)
  {
    hide Balanced;
  }

  // ---------------------------------------------------------------------
  // The object

  class TotalOutputBudget {
    const limits: Limits
    var used: nat
    var exceeded: bool
    var halted: bool
    var stdout: seq<Byte>
    var stderr: seq<Byte>
    var stdoutTruncated: bool
    var stderrTruncated: bool
    var stdoutComplete: bool
    var stderrComplete: bool
    var stdoutTransferred: bool
    var stderrTransferred: bool
    ghost var stdoutConsumed: seq<Byte>
    ghost var stderrConsumed: seq<Byte>

    ghost function State(): Ledger
      reads this
    {
      Ledger(used, exceeded, halted,
             Channel(stdout, stdoutTruncated, stdoutComplete, stdoutTransferred, stdoutConsumed),
             Channel(stderr, stderrTruncated, stderrComplete, stderrTransferred, stderrConsumed))
    }

    ghost predicate Valid()
      reads this
    {
      Balanced(limits, State())
    }

    constructor (limits: Limits)
      ensures Valid() && this.limits == limits && State() == EMPTY_LEDGER
    {
      this.limits := limits;
      used, exceeded, halted := 0, false, false;
      stdout, stderr, stdoutConsumed, stderrConsumed := [], [], [], [];
      stdoutTruncated, stderrTruncated := false, false;
      stdoutComplete, stderrComplete := false, false;
      stdoutTransferred, stderrTransferred := false, false;
    }

    method ReadReady(pipe: PipeReader, buffer: nat, ready: nat, s: Stream)
      returns (result: Result<seq<Byte>, IoError>)
      modifies this, pipe
      ensures var request := PipeRequest(limits, old(State()), buffer, ready);
        && (State(), result)
           == AfterReadReady(limits, old(State()), s, buffer, ready, Answer(old(pipe.script), request))
        && pipe.script == if request == 0 then old(pipe.script) else Rest(old(pipe.script), request)
      ensures old(Valid() && !State().Get(s).transferred) ==> Valid()
    {
      result := ReadUnderLock(pipe, buffer, ready, s);
      ghost var request := PipeRequest(limits, old(State()), buffer, ready);
      if old(Valid() && !State().Get(s).transferred) {
        ReadingBalances(limits, old(State()), s, buffer, ready, Answer(old(pipe.script), request));
      }
    }

    /** The critical section of `ReadReady`. */
    method ReadUnderLock(pipe: PipeReader, buffer: nat, ready: nat, s: Stream)
      returns (result: Result<seq<Byte>, IoError>)
      modifies this, pipe
      ensures var request := PipeRequest(limits, old(State()), buffer, ready);
        && (State(), result)
           == AfterReadReady(limits, old(State()), s, buffer, ready, Answer(old(pipe.script), request))
        && pipe.script == if request == 0 then old(pipe.script) else Rest(old(pipe.script), request)
    {
      hide KeepBytes, Drops;
      if halted {
        return Ok([]);
      }
      var ceiling := limits.limit + 1;
      var remaining := SaturatingSub(ceiling, used);
      if remaining == 0 {
        exceeded := true;
        halted := true;
        return Ok([]);
      }
      var request := Min(Min(buffer, ready), Min(remaining, USIZE_MAX));
      if request == 0 {
        return Ok([]);
      }
      result := pipe.Read(request);
      if result.Err? {
        return;
      }
      used := used + |result.value|;
      Retain(s, result.value);
      if used > limits.limit {
        exceeded := true;
        halted := true;
      }
    }

    /** Keeps the prefix a stream's cap allows and remembers whether bytes were dropped. */
    method Retain(s: Stream, chunk: seq<Byte>)
      modifies this
      ensures State() == old(State()).Put(s, old(State()).Get(s).(
          bytes := KeepBytes(old(State()).Get(s).bytes, chunk, limits.Cap(s)),
          truncated := old(State()).Get(s).truncated || Drops(old(State()).Get(s).bytes, chunk, limits.Cap(s)),
          consumed := old(State()).Get(s).consumed + chunk))
    {
      var cap := limits.Cap(s);
      match s {
        case Stdout =>
          stdoutTruncated := stdoutTruncated || Drops(stdout, chunk, cap);
          stdout := KeepBytes(stdout, chunk, cap);
          stdoutConsumed := stdoutConsumed + chunk;
        case Stderr =>
          stderrTruncated := stderrTruncated || Drops(stderr, chunk, cap);
          stderr := KeepBytes(stderr, chunk, cap);
          stderrConsumed := stderrConsumed + chunk;
      }
    }

    method IsExceeded() returns (r: Option<(nat, nat)>)
      ensures r == Exceeded(limits, State())
      ensures Valid() ==> (r.Some? <==> State().Consumed() == limits.Ceiling())
      ensures Valid() && r.Some? ==> r.value == (limits.limit, limits.limit + 1)
    {
      r := if exceeded then Some((limits.limit, used)) else None;
    }

    method IsHalted() returns (r: bool)
      ensures r == halted
      ensures Valid() ==> (r <==> State().Consumed() == limits.Ceiling())
    {
      r := halted;
    }

    method MarkComplete(s: Stream)
      modifies this
      ensures State() == AfterMarkComplete(old(State()), s)
      ensures old(Valid()) ==> Valid()
    {
      match s {
        case Stdout => stdoutComplete := true;
        case Stderr => stderrComplete := true;
      }
    }

    method CapturedStream(s: Stream) returns (output: CapturedOutput)
      ensures output == Snapshot(State(), s)
    {
      output := match s
        case Stdout => CapturedOutput(stdout, stdoutTruncated, stdoutComplete)
        case Stderr => CapturedOutput(stderr, stderrTruncated, stderrComplete);
    }

    method CapturedStreamMetadata(s: Stream) returns (output: CapturedOutput)
      ensures output == Snapshot(State(), s).(bytes := [])
    {
      output := match s
        case Stdout => CapturedOutput([], stdoutTruncated, stdoutComplete)
        case Stderr => CapturedOutput([], stderrTruncated, stderrComplete);
    }

    method CapturedStreams() returns (pair: CapturedPair)
      ensures pair == CapturedPair(Snapshot(State(), Stdout), Snapshot(State(), Stderr))
    {
      var out := CapturedStream(Stdout);
      var err := CapturedStream(Stderr);
      pair := CapturedPair(out, err);
    }

    method CapturedOutputWithJoined(joined: Option<CapturedPair>) returns (pair: CapturedPair)
      ensures pair == CapturedPair(WithJoined(State(), Stdout, joined), WithJoined(State(), Stderr, joined))
    {
      var out, err;
      if stdoutTransferred {
        out := match joined
          case Some(j) => j.stdout
          case None => CapturedOutput([], stdoutTruncated, false);
      } else {
        out := CapturedStream(Stdout);
      }
      if stderrTransferred {
        err := match joined
          case Some(j) => j.stderr
          case None => CapturedOutput([], stderrTruncated, false);
      } else {
        err := CapturedStream(Stderr);
      }
      pair := CapturedPair(out, err);
    }

    method TakeCapturedStream(s: Stream) returns (output: CapturedOutput)
      modifies this
      ensures (State(), output) == Take(old(State()), s)
      ensures old(Valid()) ==> Valid()
    {
      match s {
        case Stdout =>
          output := CapturedOutput([], stdoutTruncated, stdoutComplete);
          if !stdoutTransferred {
            stdoutTransferred := true;
            output := output.(bytes := stdout);
            stdout := [];
          }
        case Stderr =>
          output := CapturedOutput([], stderrTruncated, stderrComplete);
          if !stderrTransferred {
            stderrTransferred := true;
            output := output.(bytes := stderr);
            stderr := [];
          }
      }
    }

    /** Lets the readers that still run perform any critical sections they like. */
    method RunReaders(stdoutLive: bool, stderrLive: bool)
      modifies this
      ensures Advances(limits, old(State()), State(), stdoutLive, stderrLive)
    {
      var turns :| turns >= 0;
      for turn := 0 to turns
        invariant Advances(limits, old(State()), State(), stdoutLive, stderrLive)
      {
        var s: Stream := *;
        var takesBytes: bool := *;
        hide Advances, AfterReadReady;
        if (if s.Stdout? then stdoutLive && !stdoutTransferred else stderrLive && !stderrTransferred) {
          ghost var before := State();
          TakeTurn(s, takesBytes);
          MoreLive(limits, before, State(), s, stdoutLive, stderrLive);
          AdvancesChain(limits, old(State()), before, State(), stdoutLive, stderrLive);
        }
      }
    }

    /** One read of whatever the pipe answers, or marking the stream complete. */
    method TakeTurn(s: Stream, takesBytes: bool)
      requires !State().Get(s).transferred
      modifies this
      ensures Advances(limits, old(State()), State(), s.Stdout?, s.Stderr?)
    {
      hide Advances, AfterReadReady, PipeRequest;
      if takesBytes {
        var buffer: nat, ready: nat :| buffer >= 0 && ready >= 0;
        var script: seq<PipeEvent> := *;
        var pipe := new PipeReader(script);
        var answer := ReadReady(pipe, buffer, ready, s);
        ghost var request := PipeRequest(limits, old(State()), buffer, ready);
        ReadingAdvances(limits, old(State()), s, buffer, ready, Answer(script, request));
      } else {
        MarkComplete(s);
        MarkingAdvances(limits, old(State()), s);
      }
    }
  }

  // ---------------------------------------------------------------------
  // A budget that a run may not have

  ghost function LedgerOf(budget: TotalOutputBudget?): Option<Ledger>
    reads budget
  {
    if budget == null then None else Some(budget.State())
  }

  /** `Advances` for a budget that may be absent. */
  ghost predicate MovesOn(budget: TotalOutputBudget?, b: Option<Ledger>, b': Option<Ledger>,
                          stdoutLive: bool, stderrLive: bool)
  {
    && (b.Some? <==> budget != null) && (b'.Some? <==> budget != null)
    && (budget != null ==> Advances(budget.limits, b.value, b'.value, stdoutLive, stderrLive))
  }

  method RunReaders(budget: TotalOutputBudget?, stdoutLive: bool, stderrLive: bool)
    modifies budget
    ensures MovesOn(budget, old(LedgerOf(budget)), LedgerOf(budget), stdoutLive, stderrLive)
  {
    hide Advances;
    if budget != null {
      budget.RunReaders(stdoutLive, stderrLive);
    }
  }

  lemma StaysPut(budget: TotalOutputBudget?, b: Option<Ledger>)
    requires b.Some? <==> budget != null
    ensures MovesOn(budget, b, b, true, true)
  {
  }

  lemma MovesOnChain(budget: TotalOutputBudget?, a: Option<Ledger>, b: Option<Ledger>, c: Option<Ledger>)
    requires MovesOn(budget, a, b, true, true) && MovesOn(budget, b, c, true, true)
    ensures MovesOn(budget, a, c, true, true)
  {
    if budget != null {
      AdvancesChain(budget.limits, a.value, b.value, c.value, true, true);
    }
  }
}
