/** A reader thread from the runner's side: joining it moves the budget's bytes
    out, detaching it copies them (`src/command_runner/internal/output_reader.rs`,
    `output_reader_finish.rs`). */
module OutputReaders {
  import opened Basics
  import opened OutputBudget
  import opened OutputCollector

  /** What became of a reader thread. */
  datatype HelperEnd = Joined(result: CaptureResult) | Detached(output: CapturedOutput)

  /** `replace_error_output`: the capture of a joined reader comes from the budget. */
  function ReplaceOutput(result: CaptureResult, output: CapturedOutput): CaptureResult {
    match result
    case Ok(_) => Ok(output)
    case Err(ReadError(source, _)) => Err(ReadError(source, output))
    case Err(WriteError(path, source, _)) => Err(WriteError(path, source, output))
    case Err(ReadAfterWrite(path, w, r, _)) => Err(ReadAfterWrite(path, w, r, output))
  }

  function CaptureOf(result: CaptureResult): CapturedOutput {
    match result
    case Ok(output) => output
    case Err(error) => error.output
  }

  function OutputOf(end: HelperEnd): CapturedOutput {
    match end
    case Joined(result) => CaptureOf(result)
    case Detached(output) => output
  }

  /** Replacing the capture keeps every failure and installs exactly the new bytes. */
  lemma ReplacedReport(writeError: Option<TeeFailure>, stop: Stop, own: CapturedOutput, output: CapturedOutput)
    ensures ReplaceOutput(Report(writeError, stop, own), output) == Report(writeError, stop, output)
    ensures CaptureOf(Report(writeError, stop, output)) == output
  {
  }

  class OutputReader {
    /** What the thread returns when it ends; a panic counts as a read error. */
    const worker: CaptureResult
    const budget: TotalOutputBudget?
    const stream: Stream

    constructor (worker: CaptureResult, budget: TotalOutputBudget?, stream: Stream)
      ensures this.worker == worker && this.budget == budget && this.stream == stream
    {
      this.worker, this.budget, this.stream := worker, budget, stream;
    }

    method Join() returns (result: CaptureResult)
      modifies budget
      ensures budget == null ==> result == worker
      ensures budget != null ==>
        && result == ReplaceOutput(worker, Take(old(budget.State()), stream).1)
        && budget.State() == Take(old(budget.State()), stream).0
    {
      result := worker;
      if budget != null {
        var output := budget.TakeCapturedStream(stream);
        match worker {
          case Ok(_) => result := Ok(output);
          case Err(ReadError(source, _)) => result := Err(ReadError(source, output));
          case Err(WriteError(path, source, _)) => result := Err(WriteError(path, source, output));
          case Err(ReadAfterWrite(path, w, r, _)) => result := Err(ReadAfterWrite(path, w, r, output));
        }
      }
    }

    /** A point-in-time copy, never presented as complete. */
    method DetachedOutput() returns (output: CapturedOutput)
      ensures output == (if budget == null then CapturedOutput([], false, false)
                         else Snapshot(budget.State(), stream).(complete := false))
    {
      output := CapturedOutput([], false, true);
      if budget != null {
        output := budget.CapturedStream(stream);
      }
      output := output.(complete := false);
    }
  }
}
