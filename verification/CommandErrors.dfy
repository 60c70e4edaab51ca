/** The error value of a run: one primary reason, at most one output carrier,
    and a cleanup list kept in canonical resource order.

    `src/command_error.rs` restores the order with a stable sort after every
    batch.  The theorems below say what a caller can rely on no matter how many
    batches were attached. */
module CommandErrors {
  import opened Basics

  datatype CleanupFailure =
    | ProcessTreeTermination(source: IoError)
    | ChildTermination(source: IoError)
    | Wait(source: IoError)
    | Time(clock: TimeError)
    | StdoutCancellation(source: IoError)
    | StdoutRead(source: IoError)
    | StdoutWrite(path: Path, source: IoError)
    | StderrCancellation(source: IoError)
    | StderrRead(source: IoError)
    | StderrWrite(path: Path, source: IoError)
    | Stdin(source: IoError)
    | StdinCancellation(source: IoError)

  datatype Reason =
    | WaitFailed(source: IoError)
    | TimedOut(timeout: Duration)
    | Cancelled
    | OutputLimitExceeded(limit: nat, observed: nat)
    | TimeFailed(clock: TimeError)
    | ReadOutputFailed(stream: Stream, source: IoError)
    | WriteOutputFailed(stream: Stream, path: Path, source: IoError)
    | WriteInputFailed(source: IoError)
    | StartupFailed(source: IoError)

  datatype CommandOutput = CommandOutput(status: ExitStatus, captured: CapturedPair, elapsed: Duration)

  function Rank(failure: CleanupFailure): nat {
    match failure
    case ProcessTreeTermination(_) => 0
    case ChildTermination(_) => 1
    case Wait(_) => 2
    case Time(_) => 3
    case StdoutCancellation(_) | StdoutRead(_) | StdoutWrite(_, _) => 4
    case StderrCancellation(_) | StderrRead(_) | StderrWrite(_, _) => 5
    case Stdin(_) | StdinCancellation(_) => 6
  }

  /** The cleanup form of a primary reason; only helper and clock failures have one. */
  function PrimaryCleanup(reason: Reason): Option<CleanupFailure> {
    match reason
    case TimeFailed(clock) => Some(Time(clock))
    case WriteInputFailed(source) => Some(Stdin(source))
    case ReadOutputFailed(Stdout, source) => Some(StdoutRead(source))
    case ReadOutputFailed(Stderr, source) => Some(StderrRead(source))
    case WriteOutputFailed(Stdout, path, source) => Some(StdoutWrite(path, source))
    case WriteOutputFailed(Stderr, path, source) => Some(StderrWrite(path, source))
    case _ => None
  }

  function OptionToSeq<T>(o: Option<T>): seq<T> {
    if o.Some? then [o.value] else []
  }

  // ---------------------------------------------------------------------
  // Stable sorting by resource rank

  predicate RankSorted(xs: seq<CleanupFailure>) {
    forall i, j :: 0 <= i < j < |xs| ==> Rank(xs[i]) <= Rank(xs[j])
  }

  /** The subsequence of one resource, in order of arrival. */
  function OfRank(xs: seq<CleanupFailure>, r: nat): seq<CleanupFailure> {
    if xs == [] then []
    else (if Rank(xs[0]) == r then [xs[0]] else []) + OfRank(xs[1..], r)
  }

  /** `ys` lists the failures of `xs` in rank order without reordering a resource. */
  ghost predicate StableOrderOf(ys: seq<CleanupFailure>, xs: seq<CleanupFailure>) {
    RankSorted(ys) && forall r: nat :: OfRank(ys, r) == OfRank(xs, r)
  }

  /** Inserts `x` in front of every failure whose rank is not smaller. */
  function InsertByRank(x: CleanupFailure, sorted: seq<CleanupFailure>): seq<CleanupFailure> {
    if sorted == [] || Rank(x) <= Rank(sorted[0]) then [x] + sorted
    else [sorted[0]] + InsertByRank(x, sorted[1..])
  }

  function SortByRank(xs: seq<CleanupFailure>): seq<CleanupFailure> {
    if xs == [] then [] else InsertByRank(xs[0], SortByRank(xs[1..]))
  }

  lemma {:induction false} OfRankConcat(xs: seq<CleanupFailure>, ys: seq<CleanupFailure>, r: nat)
    ensures OfRank(xs + ys, r) == OfRank(xs, r) + OfRank(ys, r)
  {
    hide Rank;
    if xs == [] {
      assert xs + ys == ys;
    } else {
      var first := if Rank(xs[0]) == r then [xs[0]] else [];
      OfRankConcat(xs[1..], ys, r);
      assert OfRank(xs + ys, r) == first + OfRank(xs[1..] + ys, r) by {
        assert (xs + ys)[1..] == xs[1..] + ys && (xs + ys)[0] == xs[0];
      }
      hide OfRank;
      assert first + (OfRank(xs[1..], r) + OfRank(ys, r)) == (first + OfRank(xs[1..], r)) + OfRank(ys, r);
    }
  }

  /** The subsequence of a failure's own rank holds every occurrence of it. */
  lemma {:induction false} OfRankCounts(xs: seq<CleanupFailure>, f: CleanupFailure)
    ensures multiset(OfRank(xs, Rank(f)))[f] == multiset(xs)[f]
  {
    if xs == [] {
    } else {
      assert xs == [xs[0]] + xs[1..];
      OfRankCounts(xs[1..], f);
    }
  }

  lemma {:induction false} InsertKeepsOrder(x: CleanupFailure, sorted: seq<CleanupFailure>)
    requires RankSorted(sorted)
    ensures StableOrderOf(InsertByRank(x, sorted), [x] + sorted)
  {
    var ys := InsertByRank(x, sorted);
    if sorted == [] || Rank(x) <= Rank(sorted[0]) {
    } else {
      var tail := InsertByRank(x, sorted[1..]);
      InsertKeepsOrder(x, sorted[1..]);
      InsertMembers(x, sorted[1..]);
      assert sorted == [sorted[0]] + sorted[1..];
      forall r: nat ensures OfRank(ys, r) == OfRank([x] + sorted, r) {
        assert OfRank(tail, r) == OfRank([x] + sorted[1..], r);
        assert ([x] + sorted)[1..] == sorted && ([x] + sorted[1..])[1..] == sorted[1..];
        assert ys[1..] == tail;
      }
      forall i, j | 0 <= i < j < |ys| ensures Rank(ys[i]) <= Rank(ys[j]) {
        if i == 0 {
          assert ys[j] == tail[j - 1] && tail[j - 1] in tail;
        }
      }
    }
  }

  lemma {:induction false} InsertMembers(x: CleanupFailure, sorted: seq<CleanupFailure>)
    ensures forall f :: f in InsertByRank(x, sorted) ==> f == x || f in sorted
  {
    if sorted == [] || Rank(x) <= Rank(sorted[0]) {
    } else {
      InsertMembers(x, sorted[1..]);
    }
  }

  /** The model's sort is a stable sort by rank. */
  lemma {:induction false} SortIsStable(xs: seq<CleanupFailure>)
    ensures StableOrderOf(SortByRank(xs), xs)
  {
    if xs == [] {
    } else {
      SortIsStable(xs[1..]);
      var rest := SortByRank(xs[1..]);
      InsertKeepsOrder(xs[0], rest);
      forall r: nat ensures OfRank(SortByRank(xs), r) == OfRank(xs, r) {
        assert ([xs[0]] + rest)[1..] == rest;
      }
    }
  }

  lemma {:induction false} HeadOfRank(xs: seq<CleanupFailure>, f: CleanupFailure)
    requires f in xs
    ensures f in OfRank(xs, Rank(f))
  {
    OfRankCounts(xs, f);
    assert multiset(xs)[f] > 0;
    assert f in multiset(OfRank(xs, Rank(f)));
  }

  lemma {:induction false} OfRankMembers(xs: seq<CleanupFailure>, r: nat)
    ensures forall f :: f in OfRank(xs, r) ==> f in xs && Rank(f) == r
  {
    if xs == [] {
    } else {
      OfRankMembers(xs[1..], r);
    }
  }

  /** Rank order plus per-resource arrival order leaves no freedom: any two
      arrangements with these properties are equal. */
  lemma {:induction false} StableOrderIsUnique(
    p: seq<CleanupFailure>, q: seq<CleanupFailure>, xs: seq<CleanupFailure>)
    requires StableOrderOf(p, xs) && StableOrderOf(q, xs)
    ensures p == q
  {
    SameFirst(p, q, xs);
    if p == [] {
    } else {
      forall r: nat ensures OfRank(p[1..], r) == OfRank(q[1..], r) {
        var k := if Rank(p[0]) == r then 1 else 0;
        assert OfRank(p[1..], r) == OfRank(p, r)[k..];
        assert OfRank(q[1..], r) == OfRank(q, r)[k..];
        assert OfRank(p, r) == OfRank(xs, r) == OfRank(q, r);
      }
      StableOrderIsUnique(p[1..], q[1..], p[1..]);
      assert p == [p[0]] + p[1..] && q == [q[0]] + q[1..];
    }
  }

  lemma SameFirst(p: seq<CleanupFailure>, q: seq<CleanupFailure>, xs: seq<CleanupFailure>)
    requires StableOrderOf(p, xs) && StableOrderOf(q, xs)
    ensures |p| == 0 <==> |q| == 0
    ensures p != [] ==> p[0] == q[0]
  {
    if p != [] {
      HeadIsEarliest(p, q, xs);
    }
    if q != [] {
      HeadIsEarliest(q, p, xs);
    }
    if p != [] && q != [] {
      var r := Rank(p[0]);
      assert OfRank(p, r)[0] == p[0] && OfRank(q, r)[0] == q[0];
      assert OfRank(p, r) == OfRank(xs, r) == OfRank(q, r);
    }
  }

  lemma HeadIsEarliest(p: seq<CleanupFailure>, q: seq<CleanupFailure>, xs: seq<CleanupFailure>)
    requires StableOrderOf(p, xs) && StableOrderOf(q, xs) && p != []
    ensures q != [] && Rank(q[0]) <= Rank(p[0])
  {
    var f := p[0];
    HeadOfRank(p, f);
    assert OfRank(p, Rank(f)) == OfRank(xs, Rank(f)) == OfRank(q, Rank(f));
    OfRankMembers(q, Rank(f));
    assert f in q;
    var i :| 0 <= i < |q| && q[i] == f;
    assert i > 0 ==> Rank(q[0]) <= Rank(q[i]);
  }

  /** Re-sorting already sorted pieces changes nothing: only the concatenation counts. */
  lemma SortAbsorbsSort(xs: seq<CleanupFailure>, ys: seq<CleanupFailure>)
    ensures SortByRank(SortByRank(xs) + ys) == SortByRank(xs + ys)
    ensures SortByRank(xs + SortByRank(ys)) == SortByRank(xs + ys)
  {
    SortIsStable(xs);
    SortIsStable(ys);
    SortIsStable(xs + ys);
    SortIsStable(SortByRank(xs) + ys);
    SortIsStable(xs + SortByRank(ys));
    forall r: nat
      ensures OfRank(SortByRank(SortByRank(xs) + ys), r) == OfRank(xs + ys, r)
      ensures OfRank(SortByRank(xs + SortByRank(ys)), r) == OfRank(xs + ys, r)
    {
      OfRankConcat(xs, ys, r);
      OfRankConcat(SortByRank(xs), ys, r);
      OfRankConcat(xs, SortByRank(ys), r);
    }
    StableOrderIsUnique(SortByRank(SortByRank(xs) + ys), SortByRank(xs + ys), xs + ys);
    StableOrderIsUnique(SortByRank(xs + SortByRank(ys)), SortByRank(xs + ys), xs + ys);
  }

  /** Sorting neither loses nor duplicates a failure. */
  lemma SortIsPermutation(xs: seq<CleanupFailure>)
    ensures multiset(SortByRank(xs)) == multiset(xs)
  {
    SortIsStable(xs);
    forall f: CleanupFailure ensures multiset(SortByRank(xs))[f] == multiset(xs)[f] {
      OfRankCounts(xs, f);
      OfRankCounts(SortByRank(xs), f);
    }
  }

  /** What failed to be cleaned up. */
  datatype Resource = ProcessTree | DirectChild | Waiting | Timing | OutputStream(s: Stream) | InputStream

  function ResourceOf(failure: CleanupFailure): Resource {
    if failure.ProcessTreeTermination? then ProcessTree
    else if failure.ChildTermination? then DirectChild
    else if failure.Wait? then Waiting
    else if failure.Time? then Timing
    else if failure.StdoutCancellation? || failure.StdoutRead? || failure.StdoutWrite? then OutputStream(Stdout)
    else if failure.StderrCancellation? || failure.StderrRead? || failure.StderrWrite? then OutputStream(Stderr)
    else InputStream
  }

  /** The failures of one resource, in order of arrival. */
  function Only(xs: seq<CleanupFailure>, resource: Resource): seq<CleanupFailure> {
    if xs == [] then []
    else (if ResourceOf(xs[0]) == resource then [xs[0]] else []) + Only(xs[1..], resource)
  }

  /** The failures of the first `n` ranks, rank by rank. */
  function RankByRank(xs: seq<CleanupFailure>, n: nat): seq<CleanupFailure> {
    if n == 0 then [] else RankByRank(xs, n - 1) + OfRank(xs, n - 1)
  }

  lemma {:induction false} OnlyIsOfRank(xs: seq<CleanupFailure>, resource: Resource, r: nat)
    requires forall f :: ResourceOf(f) == resource <==> Rank(f) == r
    ensures Only(xs, resource) == OfRank(xs, r)
  {
    if xs == [] {
    } else {
      OnlyIsOfRank(xs[1..], resource, r);
    }
  }

  lemma {:induction false} OfRankTwice(xs: seq<CleanupFailure>, own: nat, r: nat)
    ensures OfRank(OfRank(xs, own), r) == if own == r then OfRank(xs, own) else []
  {
    hide Rank;
    if xs == [] {
    } else {
      OfRankTwice(xs[1..], own, r);
      var first := if Rank(xs[0]) == own then [xs[0]] else [];
      OfRankConcat(first, OfRank(xs[1..], own), r);
    }
  }

  lemma {:induction false} RankByRankIsSorted(xs: seq<CleanupFailure>, n: nat)
    ensures RankSorted(RankByRank(xs, n))
    ensures forall f :: f in RankByRank(xs, n) ==> Rank(f) < n
  {
    hide Rank, OfRank;
    if n == 0 {
    } else {
      RankByRankIsSorted(xs, n - 1);
      OfRankMembers(xs, n - 1);
      var x, y := RankByRank(xs, n - 1), OfRank(xs, n - 1);
      hide RankByRank;
      forall i, j | 0 <= i < j < |x + y| ensures Rank((x + y)[i]) <= Rank((x + y)[j]) {
        assert i < |x| ==> (x + y)[i] in x;
        assert j >= |x| ==> (x + y)[j] in y;
        assert i >= |x| ==> (x + y)[i] in y;
      }
    }
  }

  lemma {:induction false} RankByRankOfRank(xs: seq<CleanupFailure>, n: nat, r: nat)
    ensures OfRank(RankByRank(xs, n), r) == if r < n then OfRank(xs, r) else []
  {
    hide Rank, OfRank;
    if n == 0 {
      assert OfRank([], r) == [] by {
        NothingOfNothing(r);
      }
    } else {
      RankByRankOfRank(xs, n - 1, r);
      OfRankConcat(RankByRank(xs, n - 1), OfRank(xs, n - 1), r);
      OfRankTwice(xs, n - 1, r);
    }
  }

  lemma NothingOfNothing(r: nat)
    ensures OfRank([], r) == []
  {
  }

  lemma {:induction false} NothingAbove(xs: seq<CleanupFailure>, r: nat)
    requires r > 6
    ensures OfRank(xs, r) == []
  {
    if xs == [] {
    } else {
      NothingAbove(xs[1..], r);
    }
  }

  lemma SortIsRankByRank(xs: seq<CleanupFailure>)
    ensures SortByRank(xs) == RankByRank(xs, 7)
  {
    hide OfRank, Rank, SortByRank, RankByRank, RankSorted;
    SortIsStable(xs);
    RankByRankIsSorted(xs, 7);
    forall r: nat ensures OfRank(RankByRank(xs, 7), r) == OfRank(xs, r) {
      RankByRankOfRank(xs, 7, r);
      if r > 6 {
        NothingAbove(xs, r);
      }
    }
    StableOrderIsUnique(SortByRank(xs), RankByRank(xs, 7), xs);
  }

  /** The report lists process tree, direct child, wait, time, stdout, stderr and
      stdin, and each of them in order of arrival. */
  lemma ReportOrder(xs: seq<CleanupFailure>)
    ensures SortByRank(xs)
            == Only(xs, ProcessTree) + Only(xs, DirectChild) + Only(xs, Waiting) + Only(xs, Timing)
               + Only(xs, OutputStream(Stdout)) + Only(xs, OutputStream(Stderr)) + Only(xs, InputStream)
  {
    hide OfRank, Only, SortByRank, RankByRank;
    SortIsRankByRank(xs);
    OnlyIsOfRank(xs, ProcessTree, 0);
    OnlyIsOfRank(xs, DirectChild, 1);
    OnlyIsOfRank(xs, Waiting, 2);
    OnlyIsOfRank(xs, Timing, 3);
    OnlyIsOfRank(xs, OutputStream(Stdout), 4);
    OnlyIsOfRank(xs, OutputStream(Stderr), 5);
    OnlyIsOfRank(xs, InputStream, 6);
    SevenRanks(xs);
  }

  lemma SevenRanks(xs: seq<CleanupFailure>)
    ensures RankByRank(xs, 7) == OfRank(xs, 0) + OfRank(xs, 1) + OfRank(xs, 2) + OfRank(xs, 3) + OfRank(xs, 4)
                                 + OfRank(xs, 5) + OfRank(xs, 6)
  {
    hide OfRank;
    assert RankByRank(xs, 1) == [] + OfRank(xs, 0) == OfRank(xs, 0);
    assert RankByRank(xs, 3) == OfRank(xs, 0) + OfRank(xs, 1) + OfRank(xs, 2);
    assert RankByRank(xs, 5) == OfRank(xs, 0) + OfRank(xs, 1) + OfRank(xs, 2) + OfRank(xs, 3) + OfRank(xs, 4);
  }

  /** Which reasons have a cleanup form, and that it names the same source. */
  lemma CleanupFormNamesReason(reason: Reason)
    ensures PrimaryCleanup(reason).None? <==>
      || reason.WaitFailed? || reason.TimedOut? || reason.Cancelled? || reason.OutputLimitExceeded?
      || reason.StartupFailed?
    ensures forall e :: PrimaryCleanup(reason) == Some(Time(e)) <==> reason == TimeFailed(e)
    ensures forall e :: PrimaryCleanup(reason) == Some(Stdin(e)) <==> reason == WriteInputFailed(e)
    ensures forall e :: PrimaryCleanup(reason) == Some(StdoutRead(e)) <==> reason == ReadOutputFailed(Stdout, e)
    ensures forall e :: PrimaryCleanup(reason) == Some(StderrRead(e)) <==> reason == ReadOutputFailed(Stderr, e)
    ensures forall p, e ::
      PrimaryCleanup(reason) == Some(StdoutWrite(p, e)) <==> reason == WriteOutputFailed(Stdout, p, e)
    ensures forall p, e ::
      PrimaryCleanup(reason) == Some(StderrWrite(p, e)) <==> reason == WriteOutputFailed(Stderr, p, e)
  {
  }

  function Concat(batches: seq<seq<CleanupFailure>>): seq<CleanupFailure> {
    if batches == [] then [] else batches[0] + Concat(batches[1..])
  }

  /** `with_cleanup_failures` applied batch after batch. */
  function AttachAll(cleanup: seq<CleanupFailure>, batches: seq<seq<CleanupFailure>>): seq<CleanupFailure>
    decreases batches
  {
    if batches == [] then cleanup
    else AttachAll(SortByRank(cleanup + batches[0]), batches[1..])
  }

  /** Any number of batches amounts to one stable sort of everything attached. */
  lemma {:induction false} BatchesSortOnce(cleanup: seq<CleanupFailure>, batches: seq<seq<CleanupFailure>>)
    requires batches != []
    ensures AttachAll(cleanup, batches) == SortByRank(cleanup + Concat(batches))
    decreases batches
  {
    var first := batches[0];
    var whole := cleanup + Concat(batches);
    assert whole == (cleanup + first) + Concat(batches[1..]);
    if |batches| == 1 {
      assert whole == cleanup + first;
    } else {
      BatchesSortOnce(SortByRank(cleanup + first), batches[1..]);
      SortAbsorbsSort(cleanup + first, Concat(batches[1..]));
    }
  }

  // ---------------------------------------------------------------------
  // The error object

  class CommandError {
    const reason: Reason
    var output: Option<CommandOutput>
    var capturedOutput: Option<CapturedPair>
    var cleanupFailures: seq<CleanupFailure>

    constructor FromReason(reason: Reason, output: Option<CommandOutput>)
      ensures this.reason == reason && this.output == output
      ensures capturedOutput == None && cleanupFailures == []
    {
      this.reason := reason;
      this.output := output;
      capturedOutput := None;
      cleanupFailures := [];
    }

    /** The stream bytes a caller of the public API can still reach. */
    function Reachable(): Option<CapturedPair>
      reads this
    {
      if output.Some? then Some(output.value.captured) else capturedOutput
    }

    /** Everything this error reports when it is demoted to cleanup evidence. */
    function AsCleanup(): seq<CleanupFailure>
      reads this
    {
      OptionToSeq(PrimaryCleanup(reason)) + cleanupFailures
    }

    method WithCleanupFailures(batch: seq<CleanupFailure>)
      modifies this`cleanupFailures
      ensures cleanupFailures == SortByRank(old(cleanupFailures) + batch)
    {
      cleanupFailures := cleanupFailures + batch;
      cleanupFailures := SortByRank(cleanupFailures);
    }

    method WithOutput(output: CommandOutput)
      modifies this`output
      ensures this.output == Some(output)
    {
      this.output := Some(output);
    }

    method WithCapturedOutput(captured: CapturedPair)
      modifies this`capturedOutput
      ensures capturedOutput == Some(captured)
    {
      capturedOutput := Some(captured);
    }

    /** Empties both carriers; a full output wins over bare captured bytes. */
    method TakeCapturedOutput() returns (taken: Option<CapturedPair>)
      modifies this`output, this`capturedOutput
      ensures taken == if old(output).Some? then Some(old(output).value.captured) else old(capturedOutput)
      ensures taken == old(Reachable())
      ensures Reachable() == None
    {
      var full, bare := output, capturedOutput;
      output, capturedOutput := None, None;
      match full {
        case Some(o) => taken := Some(o.captured);
        case None => taken := bare;
      }
    }

    method IntoCleanupFailures() returns (failures: seq<CleanupFailure>)
      ensures failures == AsCleanup()
    {
      failures := [];
      match PrimaryCleanup(reason) {
        case Some(f) => failures := failures + [f];
        case None =>
      }
      failures := failures + cleanupFailures;
    }

    /** Demotes `error`: its reason and cleanup list become evidence, and its
        bytes are adopted unless this error already carries some. */
    method WithFinalizationError(error: CommandError)
      requires error != this
      modifies this, error`output, error`capturedOutput
      ensures cleanupFailures == SortByRank(old(cleanupFailures) + old(error.AsCleanup()))
      ensures Reachable() == if old(Reachable()).Some? then old(Reachable()) else old(error.Reachable())
      ensures output == if old(Reachable()).Some? then old(output) else old(error.output)
    {
      if output.None? && capturedOutput.None? {
        output, error.output := error.output, None;
        capturedOutput, error.capturedOutput := error.capturedOutput, None;
      }
      var failures := error.IntoCleanupFailures();
      WithCleanupFailures(failures);
    }
  }
}
