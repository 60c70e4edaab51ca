/** Stopping the child: tree kill, bounded exit checks, direct-child fallback and
    the final wait (`src/command_runner/internal/process_terminator.rs`).

    The operating system answers every call as it likes; `calls` records each call
    with its answer, and the contract of `Terminate` speaks about that record. */
module ProcessTermination {
  import opened Basics
  import opened Clocks
  import opened CommandErrors

  const EXIT_CHECK_ATTEMPTS: nat := 8
  const EXIT_CHECK_DELAY: Duration := 50_000

  datatype Call =
    | KillTree(error: Option<IoError>)
    | KillChild(error: Option<IoError>)
    | TryWait(seen: Result<Option<ExitStatus>, IoError>)
    | BlockingWait(reaped: Result<ExitStatus, IoError>)

  datatype Termination =
    | Terminated(status: ExitStatus, failures: seq<CleanupFailure>)
    | NotTerminated(failures: seq<CleanupFailure>)

  /** The child as the runner sees it: a device that answers calls arbitrarily. */
  class ManagedChild {
    const treeManaged: bool
    ghost var calls: seq<Call>
    /** When the last call was made. */
    ghost var last: Duration

    constructor (treeManaged: bool)
      ensures this.treeManaged == treeManaged && calls == []
    {
      this.treeManaged := treeManaged;
      calls := [];
      last := 0;
    }

    method StartKillTree(clock: Clock) returns (error: Option<IoError>)
      modifies this, clock
      ensures calls == old(calls) + [KillTree(error)]
      ensures old(clock.now) <= last == clock.now
    {
      var now := clock.Now();
      last := now;
      error := *;
      calls := calls + [KillTree(error)];
    }

    method StartKillChild(clock: Clock) returns (error: Option<IoError>)
      modifies this, clock
      ensures calls == old(calls) + [KillChild(error)]
      ensures old(clock.now) <= last == clock.now
    {
      var now := clock.Now();
      last := now;
      error := *;
      calls := calls + [KillChild(error)];
    }

    method TryWait(clock: Clock) returns (seen: Result<Option<ExitStatus>, IoError>)
      modifies this, clock
      ensures calls == old(calls) + [Call.TryWait(seen)]
      ensures old(clock.now) <= last == clock.now
    {
      var now := clock.Now();
      last := now;
      seen := *;
      calls := calls + [Call.TryWait(seen)];
    }

    method Wait(clock: Clock) returns (reaped: Result<ExitStatus, IoError>)
      modifies this, clock
      ensures calls == old(calls) + [BlockingWait(reaped)]
      ensures old(clock.now) <= last == clock.now
    {
      var now := clock.Now();
      last := now;
      reaped := *;
      calls := calls + [BlockingWait(reaped)];
    }
  }

  // ---------------------------------------------------------------------
  // Reading a record of calls

  /** The error a call reported, in its cleanup form. */
  function CallFailure(call: Call): seq<CleanupFailure> {
    match call
    case KillTree(Some(e)) => [ProcessTreeTermination(e)]
    case KillChild(Some(e)) => [ChildTermination(e)]
    case TryWait(Err(e)) => [CleanupFailure.Wait(e)]
    case BlockingWait(Err(e)) => [CleanupFailure.Wait(e)]
    case _ => []
  }

  function FailuresSeen(trace: seq<Call>): seq<CleanupFailure> {
    if trace == [] then []
    else FailuresSeen(trace[..|trace| - 1]) + CallFailure(trace[|trace| - 1])
  }

  function ExitChecks(trace: seq<Call>): nat {
    if trace == [] then 0
    else ExitChecks(trace[..|trace| - 1]) + (if trace[|trace| - 1].TryWait? then 1 else 0)
  }

  function ExitSeen(call: Call): Option<ExitStatus> {
    match call
    case TryWait(Ok(Some(status))) => Some(status)
    case BlockingWait(Ok(status)) => Some(status)
    case _ => None
  }

  /** The tree kill failed because there was no tree left. */
  predicate TreeWasGone(trace: seq<Call>) {
    |trace| > 0 && trace[0].KillTree? && trace[0].error.Some? && trace[0].error.value.kind.NoSuchProcess?
  }

  /** The exit was known beforehand, or an exit check confirmed it without the
      direct-child fallback. */
  predicate ExitConfirmed(observed: Option<ExitStatus>, trace: seq<Call>) {
    observed.Some?
    || (|trace| > 0 && ExitSeen(trace[|trace| - 1]).Some? && forall call :: call in trace ==> !call.KillChild?)
  }

  /** What must be reported: every error in call order, except a tree that was
      already gone when the exit is confirmed. */
  function FailuresDue(observed: Option<ExitStatus>, trace: seq<Call>): seq<CleanupFailure> {
    if TreeWasGone(trace) && ExitConfirmed(observed, trace) && FailuresSeen(trace) != []
    then FailuresSeen(trace)[1..] else FailuresSeen(trace)
  }

  predicate AcceptedKill(call: Call) {
    (call.KillTree? || call.KillChild?) && call.error.None?
  }

  /** A blocking wait happens only as the last call, right after an accepted kill,
      and only while no exit status is known. */
  predicate WaitsSafely(observed: Option<ExitStatus>, trace: seq<Call>) {
    forall i :: 0 <= i < |trace| && trace[i].BlockingWait? ==>
      i == |trace| - 1 && i > 0 && AcceptedKill(trace[i - 1]) && observed.None?
  }

  /** The exit checks before position `i` were all made, or ended in an error. */
  predicate ChecksExhausted(trace: seq<Call>, i: nat)
    requires i <= |trace|
  {
    i == EXIT_CHECK_ATTEMPTS + 1 || (i > 0 && trace[i - 1].TryWait? && trace[i - 1].seen.Err?)
  }

  /** Kills are asked in order, each at most once: the tree first, when there is
      one; the direct child only as a fallback while no exit has been seen, and under
      a tree only after the exit checks are exhausted. */
  predicate KillsInOrder(treeManaged: bool, observed: Option<ExitStatus>, trace: seq<Call>) {
    && (treeManaged <==> trace != [] && trace[0].KillTree?)
    && (forall i :: 0 < i < |trace| ==> !trace[i].KillTree?)
    && (forall i :: 0 <= i < |trace| && trace[i].KillChild? ==>
          && i == |trace| - 2 && observed.None? && (treeManaged ==> ChecksExhausted(trace, i))
          && forall j :: 0 <= j < i ==> ExitSeen(trace[j]).None?)
  }

  lemma {:induction false} SeenConcat(x: seq<Call>, y: seq<Call>)
    ensures FailuresSeen(x + y) == FailuresSeen(x) + FailuresSeen(y)
    ensures ExitChecks(x + y) == ExitChecks(x) + ExitChecks(y)
  {
    hide CallFailure;
    if y == [] {
      assert x + y == x;
    } else {
      var n := |y| - 1;
      assert (x + y)[..|x + y| - 1] == x + y[..n];
      assert (x + y)[|x + y| - 1] == y[n];
      SeenConcat(x, y[..n]);
    }
  }

  lemma SeenOne(call: Call)
    ensures FailuresSeen([call]) == CallFailure(call)
    ensures ExitChecks([call]) == if call.TryWait? then 1 else 0
  {
    assert [call][..0] == [];
  }

  // ---------------------------------------------------------------------
  // The terminator

  /** The contract of one termination: how the result reads off the calls made.  It
      gives up only after an accepted tree kill or after trying the direct child. */
  ghost predicate Explains(treeManaged: bool, observed: Option<ExitStatus>, trace: seq<Call>, result: Termination) {
    && KillsInOrder(treeManaged, observed, trace)
    && result.failures == FailuresDue(observed, trace)
    && WaitsSafely(observed, trace)
    && ExitChecks(trace) <= EXIT_CHECK_ATTEMPTS + 1
    && (observed.Some? ==> result.Terminated? && result.status == observed.value && ExitChecks(trace) == 0)
    && (observed.None? && result.Terminated? ==> |trace| > 0 && ExitSeen(trace[|trace| - 1]) == Some(result.status))
    && (result.NotTerminated? ==>
          result.failures != [] && observed.None? && trace != [] && ExitSeen(trace[|trace| - 1]).None?
          && |trace| >= 2 && (trace[|trace| - 2].KillChild? || trace[|trace| - 2] == KillTree(None)))
  }

  method FinishWait(child: ManagedChild, clock: Clock, status: Option<ExitStatus>, failures: seq<CleanupFailure>)
    returns (result: Termination, ghost trace: seq<Call>)
    modifies child, clock
    ensures child.calls == old(child.calls) + trace
    ensures old(clock.now) <= clock.now
    ensures trace != [] || old(child.last) <= old(clock.now) ==> child.last <= clock.now
    ensures match status
      case Some(s) => trace == [] && result == Terminated(s, failures)
      case None => |trace| == 1 && trace[0].BlockingWait? && match trace[0].reaped
        case Ok(s) => result == Terminated(s, failures)
        case Err(e) => result == NotTerminated(failures + [CleanupFailure.Wait(e)])
  {
    match status {
      case Some(s) => return Terminated(s, failures), [];
      case None =>
        var reaped := child.Wait(clock);
        trace := [BlockingWait(reaped)];
        match reaped {
          case Ok(s) => result := Terminated(s, failures);
          case Err(e) => result := NotTerminated(failures + [CleanupFailure.Wait(e)]);
        }
    }
  }

  /** After a failed tree kill: at most eight exit checks, ended by the first
      status or error. */
  method ConfirmExit(child: ManagedChild, clock: Clock)
    returns (status: Option<ExitStatus>, failures: seq<CleanupFailure>, ghost trace: seq<Call>)
    modifies child, clock
    ensures child.calls == old(child.calls) + trace
    ensures old(clock.now) <= clock.now
    ensures trace != [] || old(child.last) <= old(clock.now) ==> child.last <= clock.now
    ensures forall call :: call in trace ==> call.TryWait?
    ensures ExitChecks(trace) == |trace| <= EXIT_CHECK_ATTEMPTS
    ensures failures == FailuresSeen(trace)
    ensures status.Some? ==> |trace| > 0 && ExitSeen(trace[|trace| - 1]) == status && failures == []
    ensures status.None? ==> forall call :: call in trace ==> ExitSeen(call).None?
    ensures status.None? ==> |trace| == EXIT_CHECK_ATTEMPTS || (trace != [] && trace[|trace| - 1].seen.Err?)
    ensures status.None? && failures == [] ==> |trace| == EXIT_CHECK_ATTEMPTS
  {
    status, failures, trace := None, [], [];
    for attempt := 0 to EXIT_CHECK_ATTEMPTS
      invariant child.calls == old(child.calls) + trace
      invariant old(clock.now) <= clock.now
      invariant trace != [] || old(child.last) <= old(clock.now) ==> child.last <= clock.now
      invariant |trace| == attempt && failures == [] && status == None
      invariant FailuresSeen(trace) == [] && ExitChecks(trace) == |trace|
      invariant forall call :: call in trace ==> call.TryWait? && ExitSeen(call).None?
    {
      var seen := child.TryWait(clock);
      SeenConcat(trace, [Call.TryWait(seen)]);
      SeenOne(Call.TryWait(seen));
      trace := trace + [Call.TryWait(seen)];
      match seen {
        case Ok(Some(s)) =>
          status := Some(s);
          return;
        case Ok(None) =>
        case Err(e) =>
          failures := [CleanupFailure.Wait(e)];
          return;
      }
      if attempt + 1 < EXIT_CHECK_ATTEMPTS {
        clock.Sleep(EXIT_CHECK_DELAY);
      }
    }
  }

  /** The record of one direct-child fallback and its result, given the failures before it. */
  ghost predicate DirectKill(trace: seq<Call>, before: seq<CleanupFailure>, result: Termination) {
    && |trace| == 2 && trace[0].KillChild? && (trace[1].BlockingWait? || trace[1].TryWait?)
    && (trace[1].BlockingWait? <==> AcceptedKill(trace[0]))
    && result.failures == before + FailuresSeen(trace)
    && ExitChecks(trace) <= 1
    && (result.Terminated? ==> ExitSeen(trace[1]) == Some(result.status))
    && (result.NotTerminated? ==> FailuresSeen(trace) != [] && ExitSeen(trace[1]).None?)
  }

  method KillDirectly(child: ManagedChild, clock: Clock, failures: seq<CleanupFailure>)
    returns (result: Termination, ghost trace: seq<Call>)
    modifies child, clock
    ensures child.calls == old(child.calls) + trace
    ensures old(clock.now) <= clock.now
    ensures trace != [] || old(child.last) <= old(clock.now) ==> child.last <= clock.now
    ensures DirectKill(trace, failures, result)
  {
    var error := child.StartKillChild(clock);
    match error {
      case None =>
        result, trace := FinishWait(child, clock, None, failures);
        SeenTwo(KillChild(error), trace[0]);
        trace := [KillChild(error), trace[0]];
      case Some(e) =>
        var seen := child.TryWait(clock);
        SeenTwo(KillChild(error), Call.TryWait(seen));
        trace := [KillChild(error), Call.TryWait(seen)];
        var all := failures + [ChildTermination(e)];
        match seen {
          case Ok(Some(s)) => result := Terminated(s, all);
          case Ok(None) => result := NotTerminated(all);
          case Err(w) => result := NotTerminated(all + [CleanupFailure.Wait(w)]);
        }
    }
  }

  lemma SeenTwo(first: Call, second: Call)
    ensures FailuresSeen([first, second]) == CallFailure(first) + CallFailure(second)
    ensures ExitChecks([first, second]) == ExitChecks([first]) + ExitChecks([second])
  {
    hide CallFailure;
    assert [first, second] == [first] + [second];
    SeenConcat([first], [second]);
    SeenOne(first);
    SeenOne(second);
  }

  /** The exit checks saw the exit: a tree that was already gone is forgiven. */
  lemma ConfirmedPath(e: IoError, checks: seq<Call>, status: ExitStatus)
    requires checks != [] && ExitSeen(checks[|checks| - 1]) == Some(status)
    requires forall call :: call in checks ==> call.TryWait?
    requires FailuresSeen(checks) == [] && ExitChecks(checks) <= EXIT_CHECK_ATTEMPTS
    ensures Explains(true, None, [KillTree(Some(e))] + checks,
              Terminated(status, if e.kind.NoSuchProcess? then [] else [ProcessTreeTermination(e)]))
  {
    var trace := [KillTree(Some(e))] + checks;
    SeenOne(KillTree(Some(e)));
    SeenConcat([KillTree(Some(e))], checks);
    hide FailuresSeen, ExitChecks;
    assert FailuresSeen(trace) == [ProcessTreeTermination(e)] && FailuresSeen(trace)[1..] == [];
    assert trace[|trace| - 1] == checks[|checks| - 1];
    assert forall i :: 0 < i < |trace| ==> trace[i] in checks;
  }

  /** The fallback ran: every error is reported, also that of a tree already gone. */
  lemma FallbackPath(before: seq<Call>, rest: seq<Call>, result: Termination)
    requires before == [] || (before[0].KillTree? && ChecksExhausted(before, |before|))
    requires forall i :: 0 < i < |before| ==> before[i].TryWait? && ExitSeen(before[i]).None?
    requires ExitChecks(before) <= EXIT_CHECK_ATTEMPTS
    requires DirectKill(rest, FailuresSeen(before), result)
    ensures Explains(before != [], None, before + rest, result)
  {
    hide FailuresSeen, ExitChecks, KillsInOrder, WaitsSafely, AcceptedKill, CallFailure;
    SeenConcat(before, rest);
    FallbackKills(before, rest);
    FallbackWaits(before, rest);
    var trace := before + rest;
    assert rest[0] in trace && trace[|trace| - 1] == rest[1];
  }

  lemma FallbackWaits(before: seq<Call>, rest: seq<Call>)
    requires forall i :: 0 <= i < |before| ==> !before[i].BlockingWait?
    requires |rest| == 2 && rest[0].KillChild? && (rest[1].BlockingWait? ==> AcceptedKill(rest[0]))
    ensures WaitsSafely(None, before + rest)
  {
    var trace := before + rest;
    assert forall i :: 0 <= i < |before| ==> trace[i] == before[i];
    assert trace[|before|] == rest[0] && trace[|before| + 1] == rest[1];
  }

  lemma FallbackKills(before: seq<Call>, rest: seq<Call>)
    requires before == [] || (before[0].KillTree? && ChecksExhausted(before, |before|))
    requires forall i :: 0 < i < |before| ==> before[i].TryWait? && ExitSeen(before[i]).None?
    requires |rest| == 2 && rest[0].KillChild? && !rest[1].KillChild? && !rest[1].KillTree?
    ensures KillsInOrder(before != [], None, before + rest)
  {
    var trace := before + rest;
    assert forall i :: 0 <= i < |before| ==> trace[i] == before[i];
    assert trace[|before|] == rest[0] && trace[|before| + 1] == rest[1];
  }

  method Terminate(child: ManagedChild, clock: Clock, observed: Option<ExitStatus>)
    returns (result: Termination, ghost trace: seq<Call>)
    modifies child, clock
    ensures child.calls == old(child.calls) + trace
    ensures old(clock.now) <= clock.now
    ensures trace != [] || old(child.last) <= old(clock.now) ==> child.last <= clock.now
    ensures Explains(child.treeManaged, observed, trace, result)
  {
    if child.treeManaged {
      var error := child.StartKillTree(clock);
      match error {
        case None => result, trace := WaitAfterTreeKill(child, clock, observed);
        case Some(e) => result, trace := HandleFailedTreeKill(child, clock, observed, e);
      }
      trace := [KillTree(error)] + trace;
    } else if observed.Some? {
      return Terminated(observed.value, []), [];
    } else {
      result, trace := KillDirectly(child, clock, []);
      FallbackPath([], trace, result);
      assert [] + trace == trace;
    }
    hide Explains;
  }

  method WaitAfterTreeKill(child: ManagedChild, clock: Clock, observed: Option<ExitStatus>)
    returns (result: Termination, ghost trace: seq<Call>)
    modifies child, clock
    ensures child.calls == old(child.calls) + trace
    ensures old(clock.now) <= clock.now
    ensures trace != [] || old(child.last) <= old(clock.now) ==> child.last <= clock.now
    ensures Explains(true, observed, [KillTree(None)] + trace, result)
  {
    result, trace := FinishWait(child, clock, observed, []);
    SeenOne(KillTree(None));
    if trace == [] {
      assert [KillTree(None)] + trace == [KillTree(None)];
    } else {
      SeenTwo(KillTree(None), trace[0]);
      SeenOne(trace[0]);
      assert [KillTree(None)] + trace == [KillTree(None), trace[0]];
    }
  }

  method HandleFailedTreeKill(child: ManagedChild, clock: Clock, observed: Option<ExitStatus>, e: IoError)
    returns (result: Termination, ghost trace: seq<Call>)
    modifies child, clock
    ensures child.calls == old(child.calls) + trace
    ensures old(clock.now) <= clock.now
    ensures trace != [] || old(child.last) <= old(clock.now) ==> child.last <= clock.now
    ensures Explains(true, observed, [KillTree(Some(e))] + trace, result)
  {
    if observed.Some? {
      var failures := if e.kind.NoSuchProcess? then [] else [ProcessTreeTermination(e)];
      result, trace := Terminated(observed.value, failures), [];
      SeenOne(KillTree(Some(e)));
      assert [KillTree(Some(e))] + trace == [KillTree(Some(e))];
    } else {
      result, trace := CheckThenKillDirectly(child, clock, e);
    }
  }

  method CheckThenKillDirectly(child: ManagedChild, clock: Clock, e: IoError)
    returns (result: Termination, ghost trace: seq<Call>)
    modifies child, clock
    ensures child.calls == old(child.calls) + trace
    ensures old(clock.now) <= clock.now
    ensures trace != [] || old(child.last) <= old(clock.now) ==> child.last <= clock.now
    ensures Explains(true, None, [KillTree(Some(e))] + trace, result)
  {
    hide FailuresSeen, ExitChecks, Explains, DirectKill, CallFailure;
    var failures := [ProcessTreeTermination(e)];
    var status, more;
    status, more, trace := ConfirmExit(child, clock);
    if status.Some? {
      if e.kind.NoSuchProcess? {
        failures := failures[1..];
        assert failures == [];
      }
      result := Terminated(status.value, failures);
      ConfirmedPath(e, trace, status.value);
    } else {
      ghost var before := [KillTree(Some(e))] + trace;
      FailedChecks(e, trace);
      ghost var rest;
      result, rest := KillDirectly(child, clock, failures + more);
      FallbackPath(before, rest, result);
      trace := trace + rest;
      assert [KillTree(Some(e))] + trace == before + rest;
    }
  }

  lemma FailedChecks(e: IoError, checks: seq<Call>)
    ensures FailuresSeen([KillTree(Some(e))] + checks) == [ProcessTreeTermination(e)] + FailuresSeen(checks)
    ensures ExitChecks([KillTree(Some(e))] + checks) == ExitChecks(checks)
  {
    SeenOne(KillTree(Some(e)));
    SeenConcat([KillTree(Some(e))], checks);
  }

  // ---------------------------------------------------------------------
  // What a termination reports, read off the calls alone

  /** The failure that the answer of one call amounts to; a tree kill that found no
      tree is forgiven unless the direct child had to be killed as well. */
  function Reported(call: Call, fellBack: bool): Option<CleanupFailure> {
    match call
    case KillTree(Some(e)) =>
      if e.kind.NoSuchProcess? && !fellBack then None else Some(ProcessTreeTermination(e))
    case KillChild(Some(e)) => Some(ChildTermination(e))
    case TryWait(Err(e)) => Some(CleanupFailure.Wait(e))
    case BlockingWait(Err(e)) => Some(CleanupFailure.Wait(e))
    case _ => None
  }

  predicate FellBack(trace: seq<Call>) {
    exists call :: call in trace && call.KillChild?
  }

  function ReportedOf(trace: seq<Call>, fellBack: bool): seq<CleanupFailure> {
    if trace == [] then []
    else ReportedOf(trace[..|trace| - 1], fellBack) + OptionToSeq(Reported(trace[|trace| - 1], fellBack))
  }

  lemma {:induction false} ReportedWithFallback(trace: seq<Call>)
    ensures ReportedOf(trace, true) == FailuresSeen(trace)
  {
    if trace == [] {
    } else {
      ReportedWithFallback(trace[..|trace| - 1]);
    }
  }

  lemma {:induction false} ReportedWithoutTree(trace: seq<Call>)
    requires forall i :: 0 <= i < |trace| ==> !trace[i].KillTree?
    ensures ReportedOf(trace, false) == FailuresSeen(trace)
  {
    if trace == [] {
    } else {
      ReportedWithoutTree(trace[..|trace| - 1]);
    }
  }

  lemma {:induction false} ReportedConcat(x: seq<Call>, y: seq<Call>, fellBack: bool)
    ensures ReportedOf(x + y, fellBack) == ReportedOf(x, fellBack) + ReportedOf(y, fellBack)
  {
    hide Reported;
    if y == [] {
      assert x + y == x;
    } else {
      var n := |y| - 1;
      assert (x + y)[..|x + y| - 1] == x + y[..n] && (x + y)[|x + y| - 1] == y[n];
      ReportedConcat(x, y[..n], fellBack);
    }
  }

  lemma SplitFirst(trace: seq<Call>)
    requires trace != []
    ensures FailuresSeen(trace) == CallFailure(trace[0]) + FailuresSeen(trace[1..])
    ensures ReportedOf(trace, false) == OptionToSeq(Reported(trace[0], false)) + ReportedOf(trace[1..], false)
  {
    assert trace == [trace[0]] + trace[1..];
    SeenConcat([trace[0]], trace[1..]);
    SeenOne(trace[0]);
    ReportedConcat([trace[0]], trace[1..], false);
    assert [trace[0]][..0] == [];
    hide CallFailure, Reported;
  }

  /** The terminator reports the failure of every call, in the order of the calls,
      under the name of what it was called for; only a tree that was gone before the
      direct child had to be killed is forgiven.  It has succeeded exactly if the exit
      was known before or the last call saw it, and under a tree it falls back only
      after eight exit checks or one that failed. */
  lemma TerminationReports(treeManaged: bool, observed: Option<ExitStatus>, trace: seq<Call>, result: Termination)
    requires Explains(treeManaged, observed, trace, result)
    ensures result.failures == ReportedOf(trace, FellBack(trace))
    ensures result.Terminated? <==> observed.Some? || (trace != [] && ExitSeen(trace[|trace| - 1]).Some?)
    ensures treeManaged && FellBack(trace) ==>
      |trace| == 1 + 8 + 2 || (|trace| > 3 && trace[|trace| - 3].TryWait? && trace[|trace| - 3].seen.Err?)
  {
    hide FailuresSeen, ReportedOf, ExitChecks, WaitsSafely;
    if FellBack(trace) {
      ReportedWithFallback(trace);
      var call :| call in trace && call.KillChild?;
      var i :| 0 <= i < |trace| && trace[i] == call;
      assert observed.None?;
    } else if trace == [] {
      ReportedWithoutTree(trace);
    } else {
      SplitFirst(trace);
      ReportedWithoutTree(trace[1..]);
      assert forall i :: 0 <= i < |trace| ==> trace[i] in trace;
    }
  }
}
