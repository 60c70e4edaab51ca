/** The guard that owns a child and its helpers until startup has finished
    (`src/command_runner/internal/starting_command.rs`). */
module StartingCommands {
  import opened Basics
  import opened Clocks
  import opened CommandErrors
  import opened OutputBudget
  import opened OutputCollector
  import opened OutputReaders
  import opened ProcessTermination
  import opened HelperShutdown
  import opened CommandIo

  /** What one cleanup did: the calls made to the child, if the guard still had
      one, and the shutdown of the helpers it had. */
  datatype Cleaning = Cleaning(calls: seq<Call>, termination: Option<Termination>,
                               ends: HelperEnds, passage: Passage, acts: seq<Act>, start: Duration)

  function CleaningFailures(c: Cleaning): seq<CleanupFailure> {
    (if c.termination.Some? then c.termination.value.failures else []) + HelperFailures(c.ends)
  }

  /** The helpers were finished as one shutdown that began no earlier than `now`. */
  ghost predicate Helped(stdout: OutputReader?, stderr: OutputReader?, stdin: StdinThread?, budget: TotalOutputBudget?,
                         now: Duration, c: Cleaning)
  {
    now <= c.start && AllFinished(stdout, stderr, stdin, budget, c.ends, c.passage, c.acts, c.start)
  }

  /** The child was terminated by one call of the terminator, or there was none. */
  ghost predicate ChildStopped(hadChild: bool, treeManaged: bool, c: Cleaning) {
    if hadChild then c.termination.Some? && Explains(treeManaged, None, c.calls, c.termination.value)
    else c.termination == None && c.calls == []
  }

  lemma SomeoneTouched(trace: seq<Act>)
    requires trace != []
    ensures exists h: Helper :: !NeverTouched(trace, h)
  {
    assert trace[0] in trace && !NeverTouched(trace, trace[0].h);
  }

  /** Finishing no helper at all touches nothing and reports nothing. */
  lemma NothingToFinish(budget: TotalOutputBudget?, ends: HelperEnds, p: Passage, acts: seq<Act>, start: Duration)
    requires AllFinished(null, null, null, budget, ends, p, acts, start)
    ensures acts == [] && HelperFailures(ends) == []
    ensures MovesOn(budget, p.start, p.end, true, true)
  {
    if acts != [] {
      SomeoneTouched(acts);
    }
    if budget != null {
      AdvancesChain(budget.limits, p.start.value, p.out.value, p.end.value, true, true);
    }
  }

  class StartingCommand {
    var child: ManagedChild?
    var stdout: OutputReader?
    var stderr: OutputReader?
    var stdin: StdinThread?
    const budget: TotalOutputBudget?

    ghost predicate Valid()
      reads this
    {
      Wired(stdout, stderr, budget)
    }

    predicate Empty()
      reads this
    {
      child == null && stdout == null && stderr == null && stdin == null
    }

    constructor (child: ManagedChild, budget: TotalOutputBudget?)
      ensures Valid() && this.child == child && this.budget == budget
      ensures stdout == null && stderr == null && stdin == null
    {
      this.child := child;
      this.budget := budget;
      stdout, stderr, stdin := null, null, null;
    }

    method SetStdinWriter(writer: StdinThread?)
      modifies this`stdin
      ensures stdin == writer
    {
      stdin := writer;
    }

    method SetStdoutReader(reader: OutputReader)
      requires Valid() && reader.stream == Stdout && reader.budget == budget
      modifies this`stdout
      ensures Valid() && stdout == reader
    {
      stdout := reader;
    }

    method SetStderrReader(reader: OutputReader)
      requires Valid() && reader.stream == Stderr && reader.budget == budget
      modifies this`stderr
      ensures Valid() && stderr == reader
    {
      stderr := reader;
    }

    /** Transfers everything to the running command; nothing is terminated or cancelled. */
    method Finish() returns (c: ManagedChild, out: OutputReader, err: OutputReader, inp: StdinThread?)
      requires Valid() && child != null && stdout != null && stderr != null
      modifies this
      ensures Valid() && Empty()
      ensures c == old(child) && out == old(stdout) && err == old(stderr) && inp == old(stdin)
    {
      c, out, err, inp := child, stdout, stderr, stdin;
      child, stdout, stderr, stdin := null, null, null, null;
    }

    /** Takes all resources, terminates the child and finishes the helpers. */
    method Cleanup(log: Log, clock: Clock) returns (failures: seq<CleanupFailure>, ghost report: Cleaning)
      requires Valid()
      modifies this, child, log, clock, budget
      ensures Valid() && Empty()
      ensures failures == CleaningFailures(report)
      ensures log.acts == old(log.acts) + report.acts
      ensures old(child) != null ==> old(child).calls == old(child.calls) + report.calls
      ensures old(child) != null && report.calls != [] ==> old(child).last <= report.start
      ensures ChildStopped(old(child) != null, old(child != null && child.treeManaged), report)
      ensures Helped(old(stdout), old(stderr), old(stdin), budget, old(clock.now), report)
      ensures report.passage.start == old(LedgerOf(budget)) && report.passage.end == LedgerOf(budget)
    {
      hide Explains, AllFinished, HelperFailures;
      failures := [];
      ghost var calls, termination := [], None;
      if child != null {
        var taken := child;
        child := null;
        var outcome;
        outcome, calls := Terminate(taken, clock, None);
        termination := Some(outcome);
        failures := failures + outcome.failures;
      }
      var out, err, inp := stdout, stderr, stdin;
      stdout, stderr, stdin := null, null, null;
      var more;
      ghost var ends, passage, acts, start;
      more, ends, passage, acts, start := CancelAndJoinStartedHelpers(out, err, inp, budget, log, clock);
      failures := failures + more;
      report := Cleaning(calls, termination, ends, passage, acts, start);
    }

    /** What dropping the guard does: the same cleanup, its failures only logged. */
    method Drop(log: Log, clock: Clock) returns (reported: seq<CleanupFailure>, ghost report: Cleaning)
      requires Valid()
      modifies this, child, log, clock, budget
      ensures Valid() && Empty()
      ensures reported == CleaningFailures(report)
      ensures log.acts == old(log.acts) + report.acts
      ensures old(child) != null ==> old(child).calls == old(child.calls) + report.calls
      ensures old(child) != null && report.calls != [] ==> old(child).last <= report.start
      ensures ChildStopped(old(child) != null, old(child != null && child.treeManaged), report)
      ensures Helped(old(stdout), old(stderr), old(stdin), budget, old(clock.now), report)
      ensures report.passage.start == old(LedgerOf(budget)) && report.passage.end == LedgerOf(budget)
      ensures old(Empty()) ==>
        && reported == [] && log.acts == old(log.acts)
        && MovesOn(budget, old(LedgerOf(budget)), LedgerOf(budget), true, true)
    {
      hide Explains, AllFinished, HelperFailures;
      reported, report := Cleanup(log, clock);
      if old(Empty()) {
        NothingToFinish(budget, report.ends, report.passage, report.acts, report.start);
      }
    }

    /** Aborting keeps the primary error, attaches every cleanup failure once and
        leaves nothing for the drop that follows. */
    method Abort(primary: CommandError, log: Log, clock: Clock) returns (ghost report: Cleaning)
      requires Valid()
      modifies this, child, primary`cleanupFailures, log, clock, budget
      ensures Valid() && Empty()
      ensures primary.cleanupFailures == SortByRank(old(primary.cleanupFailures) + CleaningFailures(report))
      ensures log.acts == old(log.acts) + report.acts
      ensures old(child) != null ==> old(child).calls == old(child.calls) + report.calls
      ensures old(child) != null && report.calls != [] ==> old(child).last <= report.start
      ensures ChildStopped(old(child) != null, old(child != null && child.treeManaged), report)
      ensures Helped(old(stdout), old(stderr), old(stdin), budget, old(clock.now), report)
      ensures report.passage.start == old(LedgerOf(budget))
      ensures MovesOn(budget, report.passage.end, LedgerOf(budget), true, true)
    {
      hide Explains, AllFinished, CleaningFailures, SortByRank, ChildStopped, MovesOn;
      var failures;
      failures, report := Cleanup(log, clock);
      primary.WithCleanupFailures(failures);
      var again;
      ghost var second;
      again, second := Drop(log, clock);
    }
  }

  // ---------------------------------------------------------------------
  // Whole startups

  /** One step of initialization, in whatever order and however far it gets. */
  datatype Step = StartStdin(writer: StdinThread?) | StartReader(reader: OutputReader)

  /** The readers and the writer registered last. */
  function Started(steps: seq<Step>, s: Stream): OutputReader? {
    if steps == [] then null
    else
      var last := steps[|steps| - 1];
      if last.StartReader? && last.reader.stream == s then last.reader else Started(steps[..|steps| - 1], s)
  }

  function StartedWriter(steps: seq<Step>): StdinThread? {
    if steps == [] then null
    else
      var last := steps[|steps| - 1];
      if last.StartStdin? then last.writer else StartedWriter(steps[..|steps| - 1])
  }

  method Initialize(child: ManagedChild, steps: seq<Step>, budget: TotalOutputBudget?) returns (guard: StartingCommand)
    requires forall step :: step in steps && step.StartReader? ==> step.reader.budget == budget
    ensures fresh(guard) && guard.Valid() && guard.child == child && guard.budget == budget
    ensures guard.stdout == Started(steps, Stdout) && guard.stderr == Started(steps, Stderr)
    ensures guard.stdin == StartedWriter(steps)
  {
    guard := new StartingCommand(child, budget);
    for k := 0 to |steps|
      invariant guard.Valid() && guard.child == child
      invariant guard.stdout == Started(steps[..k], Stdout) && guard.stderr == Started(steps[..k], Stderr)
      invariant guard.stdin == StartedWriter(steps[..k])
    {
      assert steps[..k + 1][..k] == steps[..k];
      match steps[k] {
        case StartStdin(writer) => guard.SetStdinWriter(writer);
        case StartReader(reader) =>
          if reader.stream.Stdout? {
            guard.SetStdoutReader(reader);
          } else {
            guard.SetStderrReader(reader);
          }
      }
    }
    assert steps[..|steps|] == steps;
  }

  /** A startup that fails at any point: the child goes to the terminator once, each
      helper registered so far is given up once, and all of it is reported once. */
  method FailedStartup(child: ManagedChild, steps: seq<Step>, budget: TotalOutputBudget?, primary: CommandError,
                       log: Log, clock: Clock)
    returns (ghost report: Cleaning)
    requires forall step :: step in steps && step.StartReader? ==> step.reader.budget == budget
    modifies child, primary`cleanupFailures, log, clock, budget
    ensures child.calls == old(child.calls) + report.calls && log.acts == old(log.acts) + report.acts
    ensures report.calls != [] ==> child.last <= report.start
    ensures ChildStopped(true, child.treeManaged, report)
    ensures Helped(Started(steps, Stdout), Started(steps, Stderr), StartedWriter(steps), budget, old(clock.now), report)
    ensures primary.cleanupFailures == SortByRank(old(primary.cleanupFailures) + CleaningFailures(report))
  {
    hide AllFinished, ChildStopped, SortByRank, CleaningFailures;
    var guard := Initialize(child, steps, budget);
    report := guard.Abort(primary, log, clock);
  }

  /** A startup that completes: everything is handed over untouched, also by the
      drop of the emptied guard. */
  method CompletedStartup(child: ManagedChild, steps: seq<Step>, budget: TotalOutputBudget?, log: Log, clock: Clock)
    returns (c: ManagedChild, out: OutputReader, err: OutputReader, inp: StdinThread?)
    requires forall step :: step in steps && step.StartReader? ==> step.reader.budget == budget
    requires Started(steps, Stdout) != null && Started(steps, Stderr) != null
    modifies log, clock, budget
    ensures c == child && out == Started(steps, Stdout) && err == Started(steps, Stderr) && inp == StartedWriter(steps)
    ensures log.acts == old(log.acts) && MovesOn(budget, old(LedgerOf(budget)), LedgerOf(budget), true, true)
  {
    hide AllFinished, ChildStopped, MovesOn;
    var guard := Initialize(child, steps, budget);
    c, out, err, inp := guard.Finish();
    var reported;
    ghost var report;
    reported, report := guard.Drop(log, clock);
  }
}
