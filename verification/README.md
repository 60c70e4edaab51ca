# Verified model of the command runner

This project models the run lifecycle of `CommandRunner` in Dafny and proves
what its code promises: one child process, two reader threads that share a byte
budget, an optional stdin writer, and the runner that watches, stops and
finalizes them.  `dafny verify dfyconfig.toml` checks everything.

| file | what it models |
|---|---|
| `Basics.dfy`, `Pipes.dfy`, `Clocks.dfy` | streams, opaque system errors, prefix retention; a pipe as an arbitrary script; real time |
| `OutputBudget.dfy` | the shared byte budget, as locked steps on a ledger and as a mutable object |
| `OutputCollector.dfy` | the loop that drains one pipe, as a step machine and as the loop itself |
| `OutputReaders.dfy` | joining and detaching a reader |
| `RunMachine.dfy`, `RunTheorems.dfy`, `ReaderTheorems.dfy`, `TeeFailures.dfy`, `ReaderReports.dfy`, `RunnerTheorems.dfy` | two readers and the runner under every schedule, and what holds of all of them |
| `CommandErrors.dfy` | the error object and its stable cleanup order |
| `ProcessTermination.dfy` | tree kill, exit checks, direct-child fallback, final wait |
| `HelperShutdown.dfy`, `CommandIo.dfy` | cancelling helpers under one deadline, collecting their outcomes |
| `StopReasons.dfy`, `Finalization.dfy`, `StopReports.dfy` | from stop reason to final error, and what it tells of what happened |
| `Monitoring.dfy`, `RunningCommands.dfy` | the two polling phases, and a whole run |
| `StartingCommands.dfy` | the startup guard |
| `CommandFiles.dfy` | opening and truncating tee files over hard and symbolic links |
| `Environment.dfy` | the environment builder |
| `ModelAgreement.dfy` | the run machine and the methods describe the same stop |

How outside behaviour enters: the child, the helpers' cancellation and the
confirmation polls are devices that answer every call arbitrarily and record
the calls; pipes, monitoring polls and builder calls are arbitrary finite
scripts; clocks answer arbitrarily; each system error is an opaque value, so
that "nothing lost, nothing duplicated" is an equality of multisets.  Whenever a
method of the runner waits or reads the budget, readers that are still alive
may first perform any of their critical sections.  In `RunMachine` every lock
acquisition, poll, read, tee write and runner action is one step chosen by a
schedule, and the theorems quantify over all schedules.

Three things the code does that a reader may not expect, proved as they are:

* A real end of file can leave a stream incomplete when the other stream halts
  the budget between two lock acquisitions (`EofCanBeLostToAHalt`);
  `CompleteExactly` says exactly when.
* A detached stream is never complete on the normal path, while an exceeded
  limit with a failed finalization keeps the budget's own flag.  Bytes and
  truncation agree on both paths (`StopHandsOver`).  A failing tee alone can make
  that difference, because it makes finalizing fail:
  `TeeFailureChangesExactly` and `TeeFailureCanChangeCompleteness`.
* Helpers that are finished without collecting report their own failure before
  their cancellation failure, as documented.  An exceeded limit attaches them
  the other way round, for readers and the stdin writer alike, when both failed;
  `CausalOrderExactly` says exactly when, and `CausalOrderCanFail` gives such a
  stop.

## Model

| member | source | states |
|---|---|---|
| `RunTheorems.ExactlyOnceHandOver` | src/command_runner/internal/running_command.rs:260-331 | in every interleaving, a run that ends in "output limit exceeded" (termination failed, finalization failed or succeeded, each reader joined or detached) carries for each stream exactly what its cap keeps of all bytes its reader ever took, stays that way under any later activity, leaves no joined bytes in the budget, and reports the true count, `limit + 1` |
| `RunTheorems.UncappedHandOverIsTotal` | src/command_runner/internal/total_output_budget.rs:206-331 | without per-stream caps the two captures of such a run together are exactly `limit + 1` bytes |
| `RunTheorems.LimitIsReported` | src/command_runner/internal/running_command.rs:260-325 | such a report is reachable, with one reader joined, the other detached and a failed finalization |
| `RunTheorems.BudgetCountsExactly` | src/command_runner/internal/total_output_budget.rs:112-157 | in every interleaving the counter equals the bytes taken from both pipes, never passes `limit + 1`, fits 128 bits, and "exceeded", "halted" and "sentinel byte taken" are one condition |
| `RunTheorems.HaltedRunTakesNothing` | src/command_runner/internal/total_output_budget.rs:119-122 | once halted, no reader takes another byte, whoever moves and however often |
| `RunTheorems.NoFalseCompleteness` | src/command_runner/internal/output_collector.rs:208-216 | in every interleaving a stream marked complete has seen its own pipe end; for a stopped reader the mark is exactly a stop at end of file, and exactly "end of file was seen" unless the budget halted |
| `RunTheorems.EofCanBeLostToAHalt` | src/command_runner/internal/output_collector.rs:208-216 | end of file seen does not imply complete: a concrete schedule in which stdout sees end of file, stderr then halts the budget, and stdout stays incomplete |
| `ReaderTheorems.CompleteExactly` | src/command_runner/internal/output_collector.rs:208-216 | in every interleaving the stream of a stopped reader is complete if and only if, at some step of its own, the budget was still running when the reader asked after reading nothing, or the wait itself reported end of file |
| `RunTheorems.NoOverrunMissed` | src/command_runner/internal/running_command.rs:165-189 | a budgeted run that completes normally has stopped and joined both readers and took at most `limit` bytes, in every interleaving of late reads with the exit check |
| `RunTheorems.CompletedStreamIsExact` | src/command_runner/internal/running_command.rs:346-358 | each capture of a completed run is the cap applied to everything read, complete exactly when the pipe ended, with nothing left in the budget and the tee of a successful stream equal to all bytes |
| `RunTheorems.OtherStopsHandOver` | src/command_runner/internal/running_command.rs:327-330 | a run stopped for another reason hands over joined streams in full and detached ones as a prefix never called complete |
| `RunTheorems.ReportIsFinal` | src/command_runner/internal/running_command.rs:240-249 | once a run has reported, no later move of a reader changes the report |
| `RunTheorems.UnexceededBudgetIsInvisible` | src/command_runner/internal/output_collector.rs:147-282 | while the budget has not tripped, each reader takes, tees and reports exactly what it would without a budget, in every interleaving |
| `ReaderTheorems.ReaderInEveryRun` | src/command_runner/internal/output_collector.rs:132-282 | in every interleaving the tee is a prefix of the bytes taken and equals them at end of file without tee error, and the result of a stopped reader says which of tee and pipe failed, with the flags of everything taken |
| `ReaderTheorems.TeeFailureSurvivesEveryRun` | src/command_runner/internal/output_collector.rs:241-282 | whatever the reader, its peer and the runner do later, a tee failure is neither replaced nor erased |
| `ReaderReports.ResultTellsSchedule` | src/command_runner/internal/output_collector.rs:255-282 | in every interleaving the result of a finished reader names exactly the first write or flush of its tee that failed and the pipe failure that ended it, and is a success exactly without either; a pipe error is reported unless a cancellation was observed in its place |
| `ReaderReports.JoinedReaderReportsAll` | src/command_runner/internal/output_collector.rs:547-595 | from the tee and the pipe to the report: the failures listed for a joined reader are those two, in this order and under the name of its stream, and nothing else |
| `ReaderReports.ConsumedIsAnswered` | src/command_runner/internal/output_collector.rs:177-186 | what a reader consumed in a run is, byte for byte, what its pipe answered to it |
| `TeeFailures.TeeFailureNeverStopsARun` | src/command_runner/internal/output_collector.rs:241-246 | every run with tee failures takes the same bytes and moves budget and runner the same way as the run with healthy tees; its report has the same bytes and truncation, and for joined streams the same completeness |
| `TeeFailures.TeeFailureChangesExactly` | src/command_runner/internal/running_command.rs:288-325 | what tee failures change in a collected report, exactly: the completeness of a detached stream, if and only if the limit was exceeded, only the run with the failures failed to finalize, and the budget had marked the stream complete |
| `TeeFailures.OtherReportsAreSame` | src/command_runner/internal/running_command.rs:268-286 | a report that was not collected from the helpers (termination failed, or the reason keeps no output) is wholly the same with failing and with healthy tees |
| `TeeFailures.TeeFailureCanChangeCompleteness` | src/command_runner/internal/output_collector.rs:487-505 | that case occurs: a concrete schedule, from the start of the run, whose report has stderr complete with the failing stdout tee and incomplete with a healthy one |
| `TeeFailures.FailedEndHasCause` | src/command_runner/internal/output_collector.rs:268-282 | a joined reader failed if and only if its tee or its pipe did, in every reachable state |
| `TeeFailures.DetachedComplete` | src/command_runner/internal/running_command.rs:291-313 | the collected report calls a detached stream complete if and only if the limit was exceeded, finalizing failed (clock, stdin or a joined reader), and the budget had the stream complete |
| `RunnerTheorems.RunStopsExactly` | src/command_runner/internal/running_command.rs:126-233 | in every interleaving a run stops for the budget if and only if one of the runner's readings found it exceeded, for another reason if and only if a cancellation, timeout, wait or clock failure was met, and completes if and only if the last reading found the budget intact |
| `RunnerTheorems.HaltIsNoticed` | src/command_runner/internal/running_command.rs:133-188 | once the budget is halted the runner has stopped the run after at most five moves of its own, whatever it meets and whatever the readers do |
| `RunnerTheorems.CompletionNeeds` | src/command_runner/internal/running_command.rs:165-189 | a completed run saw the exit of the child, and after it both readers and the stdin writer finished |
| `RunnerTheorems.RequestsComeFirst` | src/command_runner/internal/command_io.rs:347-361 | every stop asks both readers to stop, stdout first, before either is joined or detached; nothing else asks |
| `RunnerTheorems.DetachedExactly` | src/command_runner/internal/command_io.rs:410-420 | a reader is left behind if and only if the runner gave it up, which it does only to a reader whose own request had failed; the request counts as failed if and only if it did |
| `RunnerTheorems.AskedReaderStopsSoon` | src/command_runner/internal/output_collector.rs:147-254 | once asked to stop, a reader makes at most six more steps of its own, whatever its pipe, its tee, its peer and the runner do |
| `RunnerTheorems.AskedReaderCanStop` | src/command_runner/internal/output_collector.rs:148-163 | and it can always take them without any data from its pipe: the request alone wakes it |
| `RunnerTheorems.StopCanReport` | src/command_runner/internal/running_command.rs:260-331 | from every state of every stop some continuation that takes no data from a pipe reaches the report |
| `RunnerTheorems.OutputIsDroppedExactly` | src/command_runner/internal/running_command.rs:268-286 | a reported run carries no output if and only if it stopped for a reason other than the budget and its child could not be terminated or the reason keeps none |
| `RunMachine.EveryReachableStateOk` | src/command_runner/internal/running_command.rs:126-331 | the invariant tying both readers, the ledger, the runner and every hand-over holds in every reachable state of every schedule |
| `RunMachine.ReaderMoveKeepsOk` | src/command_runner/internal/output_collector.rs:147-282 | one step of either reader keeps that invariant for both readers and the runner |
| `RunMachine.FinishKeepsOk` | src/command_runner/internal/command_io.rs:329-386 | requesting, joining, detaching and collecting keep that invariant, which says that both readers are asked before either is ended |
| `OutputBudget.TotalOutputBudget.ReadReady` | src/command_runner/internal/total_output_budget.rs:112-151 | the locked read asks the pipe for exactly the allowed amount, returns its answer, charges and retains what came, and keeps the books balanced |
| `OutputBudget.TotalOutputBudget.Retain` | src/command_runner/internal/total_output_budget.rs:361-389 | one stream gains what its cap allows and its sticky truncation flag; the other stream does not change |
| `OutputBudget.TotalOutputBudget.IsExceeded` | src/command_runner/internal/total_output_budget.rs:154-157 | reports limit and count exactly when the sentinel byte was taken |
| `OutputBudget.TotalOutputBudget.IsHalted` | src/command_runner/internal/total_output_budget.rs:160-165 | true exactly when the sentinel byte was taken |
| `OutputBudget.TotalOutputBudget.MarkComplete` | src/command_runner/internal/total_output_budget.rs:172-178 | changes the completeness flag of one stream only |
| `OutputBudget.TotalOutputBudget.CapturedStreams` | src/command_runner/internal/total_output_budget.rs:181-187 | a copy of both streams with their flags |
| `OutputBudget.TotalOutputBudget.CapturedOutputWithJoined` | src/command_runner/internal/total_output_budget.rs:206-256 | bytes already moved out come from the joined output, all others from the budget with its own flags |
| `OutputBudget.TotalOutputBudget.CapturedStream` | src/command_runner/internal/total_output_budget.rs:267-281 | a copy that leaves the buffer in place |
| `OutputBudget.TotalOutputBudget.TakeCapturedStream` | src/command_runner/internal/total_output_budget.rs:293-331 | the first take moves the buffer out and marks it transferred; later takes get no bytes |
| `OutputBudget.TotalOutputBudget.RunReaders` | src/command_runner/internal/total_output_budget.rs:112-178 | any number of critical sections of live readers only extends streams and sets completeness, never after a halt, never for a reader whose bytes were moved out, and keeps the books balanced |
| `OutputBudget.ReadingBalances` | src/command_runner/internal/total_output_budget.rs:137-150 | for any balanced ledger and any answer of the pipe a read keeps exact accounting and cannot wrap the counter |
| `OutputBudget.RunningRequestIsPositive` | src/command_runner/internal/total_output_budget.rs:120-136 | a balanced ledger refuses a reader only by a halt, so "nothing remaining" is unreachable, and every request is the largest that buffer, pipe and budget allow |
| `OutputBudget.TakeHandsOverOnce` | src/command_runner/internal/total_output_budget.rs:293-331 | a first take yields the whole retained prefix of everything consumed, a second one yields the same flags and no bytes, the other stream is untouched |
| `Basics.RetainedIsLongestPrefix` | src/command_runner/internal/total_output_budget.rs:361-389 | what is kept is the longest prefix within the cap, and "overflows" means that something was dropped |
| `Basics.KeepingIsPrefixOfWhole` | src/command_runner/internal/total_output_budget.rs:379-388 | retaining chunk by chunk equals one prefix of the concatenation, and the sticky flag equals "more bytes than the cap" |
| `OutputCollector.EveryCollectorRun` | src/command_runner/internal/output_collector.rs:132-282 | for every unbudgeted reader, and a budgeted one while its peer stands still, and every pipe, tee and cancellation behaviour: the result is a function of the bytes consumed and of how the loop ended, the tee is a prefix of them and equal to them at end of file without tee error, the error variant says which of tee and pipe failed, and without a budget completeness is end of file alone |
| `ReaderReports.ResultTellsRun` | src/command_runner/internal/output_collector.rs:132-282 | the same for every run of one reader with or without a budget, so for every call of the loop: no tee failure, also of the final flush, and no pipe failure is dropped, and none is invented |
| `OutputCollector.ChunkingIsInvisible` | src/command_runner/internal/output_collector.rs:217-234 | two unbudgeted runs that reached end of file on the same bytes give the same result and tee, whatever the chunks, retries and polls |
| `OutputCollector.TeeFailureNeverStopsDraining` | src/command_runner/internal/output_collector.rs:241-246 | for every unbudgeted reader, and a budgeted one while its peer stands still: a run with tee failures consumes, retains and ends exactly like the same run with a healthy tee |
| `OutputCollector.TeeFailureIsKept` | src/command_runner/internal/output_collector.rs:255-282 | for every unbudgeted reader, and a budgeted one while its peer stands still: a tee failure that was recorded is never overwritten or erased by what follows |
| `OutputCollector.OutputDrain.ReadOutputInner` | src/command_runner/internal/output_collector.rs:132-282 | the loop ends, is a run of the step machine, delivers a prefix of the pipe data to the tee and to the account, and, with or without a budget, has consumed all of a pipe without empty chunks when one of its reads decided the end of file |
| `OutputCollector.OutputDrain.Turn` | src/command_runner/internal/output_collector.rs:147-254 | one turn of the loop follows the step machine and either leaves the loop or shortens what the pipe can still answer |
| `OutputCollector.OutputDrain.ClassifyZero` | src/command_runner/internal/output_collector.rs:208-216 | a read of nothing is a stop exactly if the budget is halted when asked; otherwise it is end of file and the stream is marked complete |
| `OutputCollector.OutputDrain.ClassifyError` | src/command_runner/internal/output_collector.rs:187-207 | a pending cancellation wins; otherwise a blocked read retries and any other error ends the loop with that error |
| `OutputCollector.OutputDrain.WriteTee` | src/command_runner/internal/output_collector.rs:241-246 | a successful write puts the chunk on the tee; a failed one keeps path and error, may leave a part of the chunk, and gives the tee up for good |
| `OutputReaders.OutputReader.Join` | src/command_runner/internal/output_reader.rs:138-161 | keeps the worker's failure and replaces its capture by what the budget moves out |
| `OutputReaders.OutputReader.DetachedOutput` | src/command_runner/internal/output_reader.rs:91-101 | a copy of the budget's bytes that is never complete, nothing without a budget |
| `OutputReaders.ReplacedReport` | src/command_runner/internal/output_reader.rs:173-189 | replacing the capture keeps every failure and installs exactly the new bytes |
| `CommandErrors.SortIsStable` | src/command_error.rs:99-106 | the sort yields rank order and keeps the arrival order within each resource |
| `CommandErrors.ReportOrder` | src/command_error.rs:87-106 | the report lists process tree, direct child, wait, time, stdout, stderr and stdin, and each of them in order of arrival |
| `CommandErrors.StableOrderIsUnique` | src/command_error.rs:99-106 | rank order and arrival order within a resource leave only one sequence |
| `CommandErrors.SortIsPermutation` | src/command_error.rs:99-106 | sorting neither loses nor duplicates a failure |
| `CommandErrors.BatchesSortOnce` | src/command_error.rs:99-106 | attaching any number of batches equals one stable sort of their concatenation |
| `CommandErrors.SortAbsorbsSort` | src/command_error.rs:99-106 | sorting a part before sorting the whole changes nothing |
| `CommandErrors.CommandError.WithCleanupFailures` | src/command_error.rs:99-106 | the list becomes the stable sort of the old list followed by the batch |
| `CommandErrors.CommandError.TakeCapturedOutput` | src/command_error.rs:252-259 | returns the bytes a caller could reach and leaves none behind |
| `CommandErrors.CleanupFormNamesReason` | src/command_error.rs:382-396 | which reasons have a cleanup form, and that it names the same kind, stream, path and source |
| `CommandErrors.CommandError.IntoCleanupFailures` | src/command_error.rs:128-138 | the primary helper or clock failure first, then the cleanup list in its order |
| `CommandErrors.CommandError.WithFinalizationError` | src/command_error.rs:150-156 | the demoted error's evidence is all attached, and its bytes are adopted exactly when this error had none |
| `CommandIo.CollectOutputResults` | src/command_runner/internal/output_collector.rs:442-535 | succeeds exactly when time, both streams and stdin succeeded; otherwise reason plus cleanup list are all failures in the order time, stdout, stderr, stdin (tee write before a later read), and both captures stay reachable |
| `CommandIo.CollectionIsSorted` | src/command_runner/internal/output_collector.rs:442-535 | that order is already the canonical resource order |
| `CommandIo.MapOutputReaderError` | src/command_runner/internal/output_collector.rs:609-652 | the failure becomes primary and both streams keep their places in the attached output |
| `CommandIo.StreamFailuresTell` | src/command_runner/internal/output_collector.rs:547-595 | what each result of a reader is reported as, for both streams: nothing, the read, the tee write, or the tee write and then the read |
| `CommandIo.StreamFailuresAreFaithful` | src/command_runner/internal/output_collector.rs:547-595 | equal cleanup failures mean equal results up to the captured bytes, and the same stream if there is one: nothing about a failure is lost |
| `CommandIo.CollectOutput` | src/command_runner/internal/output_collector.rs:397-421 | normal completion joins every helper, each handing over what the budget holds for it at that moment, and collects |
| `CommandIo.CancelAndCollect` | src/command_runner/internal/command_io.rs:150-200 | helpers are finished under the shutdown contract while the readers go on, cancellation failures come in helper order, detached readers count as successes with their snapshot |
| `CommandIo.CancelAndJoinStartedHelpers` | src/command_runner/internal/command_io.rs:251-270 | every failure of every supplied helper, each helper's own before its cancellation failure |
| `CommandIo.PushReaderFailures` | src/command_runner/internal/command_io.rs:482-522 | a joined reader adds its failures and any reader its cancellation failure, after what was there |
| `CommandIo.PushStdinFailures` | src/command_runner/internal/command_io.rs:530-541 | the writer's failure before its cancellation failure |
| `StopReasons.EventsStayDistinct` | src/command_runner/internal/run_event.rs:68-85 | no event loses data or is mistaken for another on its way to a stop reason |
| `StopReasons.EventNamesItsError` | src/command_runner/internal/stop_reason.rs:65-115 | on its way from event to error a stop keeps its kind, its data and the status already known |
| `StopReasons.IntoPrimaryError` | src/command_runner/internal/stop_reason.rs:100-115 | a fresh error with the reason's own kind and data and the given output |
| `StopReasons.IntoErrorAfterFinalize` | src/command_runner/internal/stop_reason.rs:129-136 | the stop reason stays primary, all evidence of the finalization error is attached, its bytes stay reachable |
| `Finalization.StopAndFinalize` | src/command_runner/internal/running_command.rs:260-331 | every stop ends in an error whose reason is the stop reason, after one termination and then one helper shutdown that meet their contracts while live readers go on, with evidence, captures, status and duration as the lemmas below describe |
| `Finalization.StopKeepsEveryFailure` | src/command_runner/internal/running_command.rs:260-331 | for every stop reason, terminator result, helper outcome and clock answer the cleanup list is a rank-sorted permutation of all retained failures |
| `StopReports.EveryTroubleIsReported` | src/command_runner/internal/running_command.rs:260-331 | said of what happened outside: the cleanup list of a stopped run is exactly the failures of the calls to the child, of the clock, of the threads that were joined and of the requests to the helpers, each once, but for a tree already gone, a broken stdin pipe and a request that found nothing to cancel |
| `StopReports.OutputByReason` | src/command_runner/internal/stop_reason.rs:75-88 | by the kind of the reason: a timeout, a cancellation and a clock failure after the exit keep the full output with status and duration, a wait failure and a clock failure before the exit keep none, an exceeded limit keeps the captures only |
| `StopReports.LimitCaptures` | src/command_runner/internal/running_command.rs:271-325 | the captures of an exceeded limit, stream by stream and with their flags: the budget before the helpers were touched if termination failed, the helpers if nothing failed, otherwise the joined reader or the budget as it stands |
| `StopReports.EveryCompletionTroubleIsReported` | src/command_runner/internal/running_command.rs:346-358 | a run that completes normally collects exactly the failures of the clock and of all threads, in resource order |
| `Finalization.CausalOrderExactly` | src/command_runner/internal/running_command.rs:305-313 | for each of the three helpers the report lists its own failures before the failure to cancel it, exactly unless the limit was exceeded, the child was terminated and both kinds occurred; in that case the order is reversed |
| `Finalization.CausalOrderCanFail` | src/command_runner/internal/running_command.rs:305-308 | that case occurs, for a reader and for the stdin writer: given any halted budget whose numbers the reason quotes, one complete stop in which stdout's tee, writing stdin and both cancellations failed, and the report has each cancellation before the earlier failure |
| `Finalization.StopHandsOver` | src/command_runner/internal/running_command.rs:260-331 | with readers that go on until they are joined, an exceeded limit hands over on every path exactly what was ever consumed; any other collected stop hands over joined streams in full and detached ones as a prefix, at least what was there before the stop, never called complete; captures are absent exactly otherwise |
| `Finalization.CompletionHandsOver` | src/command_runner/internal/running_command.rs:346-358 | normal completion hands over each stream in full with the budget's own flags |
| `Finalization.UncappedCaptureLength` | src/command_runner/internal/total_output_budget.rs:206-256 | without caps those captures together are one byte longer than the limit |
| `Finalization.FinalStatusIsEstablished` | src/command_runner/internal/running_command.rs:280-288 | the status reported with the output is the one established by the terminator, and a status observed before the stop is never replaced |
| `Finalization.TerminationRanks` | src/command_runner/internal/process_terminator.rs:65-154 | termination failures never share a rank with a stream |
| `Finalization.FinishWithoutStatus` | src/command_runner/internal/running_command.rs:416-419 | all helper failures are attached to the given error |
| `Finalization.FinishUncollected` | src/command_runner/internal/running_command.rs:268-286 | failed or unwanted termination keeps all failures and, for the limit, the bytes captured so far |
| `Finalization.AfterFailedCollection` | src/command_runner/internal/running_command.rs:288-315 | a failed finalization becomes evidence and its captures are kept |
| `Finalization.AfterCollection` | src/command_runner/internal/running_command.rs:316-330 | a successful finalization keeps output, or only captures for the limit |
| `Finalization.FinishCollected` | src/command_runner/internal/running_command.rs:288-331 | helpers are cancelled and collected once, and the error keeps evidence and captures whether or not finalizing failed |
| `ProcessTermination.Terminate` | src/command_runner/internal/process_terminator.rs:65-154 | for every answer of the system: kills are asked in order and at most once, the direct child under a tree only after eight empty exit checks or a failed one, the blocking wait is at most one, last, after an accepted kill and without known status, exit checks are at most 9, a supplied status is returned, a failed termination reports something, and the report is every error seen in call order minus only a tree already gone with confirmed exit |
| `ProcessTermination.TerminationReports` | src/command_runner/internal/process_terminator.rs:65-124 | read off the calls alone: every failed call is reported in the order of the calls under the name of its purpose, except a tree found gone before any fallback; it succeeds exactly if the exit was known or the last call saw it, and under a tree it tries the direct child only after eight exit checks or a failed one |
| `ProcessTermination.ConfirmExit` | src/command_runner/internal/process_terminator.rs:82-99 | eight checks, unless a status or an error ends them earlier |
| `ProcessTermination.KillDirectly` | src/command_runner/internal/process_terminator.rs:106-123 | the fallback waits only after an accepted kill and otherwise checks once, reporting every error |
| `ProcessTermination.FinishWait` | src/command_runner/internal/process_terminator.rs:136-154 | a known status is returned without waiting; a failed wait keeps all earlier failures |
| `ProcessTermination.FallbackPath` | src/command_runner/internal/process_terminator.rs:74-123 | when the direct-child fallback runs, the error of a tree already gone stays reported |
| `ProcessTermination.ConfirmedPath` | src/command_runner/internal/process_terminator.rs:83-89 | when a check confirms the exit, exactly a tree already gone is forgiven |
| `HelperShutdown.FinishHelpers` | src/command_runner/internal/command_io.rs:329-386 | all cancel requests precede all waits and joins and follow the one reading of the clock; each supplied helper is joined or detached exactly once, detached exactly if its request failed and its stop was never seen, and then not before the deadline 100 ms after that reading; no sleep passes the deadline, all sleeps of the three waits together are at most 100 ms; each end shows what the worker or the budget held at that moment |
| `HelperShutdown.CancellationReported` | src/command_runner/internal/command_io.rs:452-458 | read off the record alone: the error of a failed request is reported unless it found nothing to cancel and the helper was joined |
| `HelperShutdown.WaitUntilFinished` | src/command_runner/internal/command_io.rs:547-556 | ends, reports whether a stop was seen, never sleeps past the deadline, and gives up only once it has passed |
| `HelperShutdown.SleepsFit` | src/command_runner/internal/command_io.rs:547-556 | sleeps that follow each other between two instants sum to at most the time between them |
| `HelperShutdown.FinishOutputReader` | src/command_runner/internal/command_io.rs:410-420 | one reader is given up once, and its capture is moved out of the budget or copied as the budget stands then, its reader having gone on meanwhile |
| `HelperShutdown.FinishStdinWriter` | src/command_runner/internal/stdin_pipe.rs:168-191 | the writer is given up once; a broken pipe counts as success |
| `HelperShutdown.WholeRecord` | src/command_runner/internal/command_io.rs:329-386 | the records of three helpers, requests first, make one record with the whole contract |
| `HelperShutdown.OneHelper` | src/command_runner/internal/command_io.rs:410-444 | acts on other helpers do not disturb one helper's record |
| `Monitoring.WaitForEvent` | src/command_runner/internal/running_command.rs:126-155 | reports the first poll at which anything happened, by the priority budget, wait error, exit, cancellation, clock error, timeout, sleep error; a blamed budget is really exceeded by the count given; without anything to watch it is the blocking wait |
| `Monitoring.WaitForIoEvent` | src/command_runner/internal/running_command.rs:165-189 | the same after the exit, with "helpers finished" in the place of the exit and the budget read once more, not exceeded if the run goes on |
| `Monitoring.CheckCancellationAndWait` | src/command_runner/internal/running_command.rs:203-233 | cancellation, then clock, then deadline, then the sleep, whose length follows the policy |
| `Monitoring.NoWaitFailureAfterExit` | src/command_runner/internal/running_command.rs:165-189 | after an observed exit no wait failure is reported, and every stop carries the exit status |
| `Monitoring.EventTellsPoll` | src/command_runner/internal/running_command.rs:126-233 | an event says exactly what the first poll met at which anything happened: its kind, its data, the status known then, and that nothing more urgent was met; a phase without event met nothing |
| `Monitoring.ReportIsUnique` | src/command_runner/internal/running_command.rs:126-233 | a script of observations leaves no choice of event |
| `Monitoring.SleepStaysWithinDeadline` | src/command_runner/internal/wait_policy.rs:50-52 | before the deadline every sleep asked for is positive, at most 10 ms, and does not reach past it, whatever the timer answers |
| `Monitoring.SleepFollowsPolicy` | src/command_runner/internal/running_command.rs:216-230 | without a deadline every sleep lasts ten milliseconds, otherwise the adaptive delay or the time left |
| `Monitoring.DelayDoubles` | src/command_runner/internal/wait_policy.rs:33-35 | the adaptive delay starts at one millisecond and doubles up to ten |
| `Monitoring.PollingIsBounded` | src/command_runner/internal/wait_policy.rs:33-52 | with a clock that advances at least by each sleep, k sleeps of one phase satisfy 10 (k - 1) < remaining + 25 in milliseconds, measured from the start of the child |
| `RunningCommands.ExitKeepsDeadline` | src/command_runner/internal/running_command.rs:157-233 | both phases share one deadline: on one clock through both phases all their sleeps together last at most the timeout T, and k sleeps in all satisfy 10 (k - 2) < T + 50 in milliseconds |
| `Monitoring.DeadlineEndsPhase` | src/command_runner/internal/running_command.rs:126-233 | so a watched deadline ends each phase |
| `Monitoring.TotalDelayGrows` | src/command_runner/internal/wait_policy.rs:33-35 | the first n adaptive delays last at least 10 n - 25 ms, and exactly that from the fourth on |
| `RunningCommands.WaitForCompletion` | src/command_runner/internal/running_command.rs:110-116 | a completed run was never terminated or cancelled and is collected with the exit status both phases saw; every other settled run ends in the error of the event that settled it; an exceeded limit, whatever happens while stopping, hands over exactly what both readers ever took, `limit + 1` bytes before caps |
| `RunningCommands.FinalEventTellsPoll` | src/command_runner/internal/running_command.rs:240-249 | the event that settles a watched run was met by a poll of the first phase, or of the second phase once the exit was seen, so a deadline, a cancellation and the budget still count after the exit |
| `RunningCommands.Monitor` | src/command_runner/internal/running_command.rs:240-249 | the second phase decides exactly when the first one saw the exit, and cannot change the status; readers go on meanwhile |
| `StartingCommands.StartingCommand.Cleanup` | src/command_runner/internal/starting_command.rs:165-180 | takes everything, terminates an owned child once, then gives up each started helper once, and reports exactly those failures |
| `StartingCommands.StartingCommand.Drop` | src/command_runner/internal/starting_command.rs:185-189 | the same; on an emptied guard it touches nothing and reports nothing |
| `StartingCommands.StartingCommand.Abort` | src/command_runner/internal/starting_command.rs:157-159 | attaches every cleanup failure once to the primary error and leaves nothing for the drop |
| `StartingCommands.StartingCommand.Finish` | src/command_runner/internal/starting_command.rs:121-139 | transfers the child and all helpers and empties the guard |
| `StartingCommands.NothingToFinish` | src/command_runner/internal/command_io.rs:329-386 | finishing no helper touches nothing, reports nothing and leaves the budget alone |
| `StartingCommands.FailedStartup` | src/command_runner/internal/starting_command.rs:51-180 | after any initialization prefix an abort terminates the child once, gives up each registered helper once and reports all of it once |
| `StopReports.EveryStartupTroubleIsReported` | src/command_runner/internal/starting_command.rs:165-180 | the failures of a startup cleanup are exactly those of the calls to the child, of the joined threads and of the requests |
| `StartingCommands.CompletedStartup` | src/command_runner/internal/starting_command.rs:51-139 | after a complete initialization everything is handed over untouched, also by the drop |
| `ModelAgreement.ReaderMovesAdvance` | src/command_runner/internal/output_collector.rs:132-282 | every reader step of the run machine is one of those the methods allow live readers, and a stopped reader moves nothing |
| `ModelAgreement.PlansAgree` | src/command_runner/internal/running_command.rs:268-286 | run machine and methods collect in the same cases, and otherwise end in the same captures |
| `ModelAgreement.CapturesAgree` | src/command_runner/internal/running_command.rs:288-331 | what the run machine collects is the capture of the methods' final error |
| `CommandFiles.IoFiles.Commit` | src/command_runner/internal/io_files.rs:239-268 | on every path nothing that existed changes before all identity checks passed, afterwards only the outputs may be emptied and only stdout's after a failure, the input never changes; success leaves empty, different outputs; an error names a configured path, a conflict is real and an output called unusable is |
| `CommandFiles.OpenAll` | src/command_runner/internal/prepared_command.rs:62-127 | from configuration to open files over any links, other processes changing anything before the commit: the commit leaves the input as it found it on every path, and success means empty outputs different from each other and from the input |
| `CommandFiles.Prepare` | src/command_runner/internal/io_files.rs:180-209 | changes no file; success means usable outputs and no two of the three paths leading to one directory entry; an error names a configured path, and an objection it raises is true |
| `CommandFiles.OpenInput` | src/command_runner/internal/io_files.rs:287-313 | the input is a regular file reached by its path, not yet connected to the child |
| `CommandFiles.OpenOutput` | src/command_runner/internal/io_files.rs:330-339 | creates at most one empty file, truncates nothing, yields a regular file reached by its path |
| `CommandFiles.EnsureRegularOutput` | src/command_runner/internal/io_files.rs:448-459 | accepts only a regular file or an absent name that is not a dangling link |
| `CommandFiles.NormalizedMeansEntry` | src/command_runner/internal/io_files.rs:542-568 | two usable paths that lead to one directory entry have one normalized place, and only paths that share an entry do |
| `CommandFiles.ValidateNormalizedPaths` | src/command_runner/internal/io_files.rs:483-523 | accepts only pairwise different known places, and a reported conflict is real |
| `CommandFiles.ValidateFileIdentities` | src/command_runner/internal/io_files.rs:592-634 | accepts only pairwise different files, and a reported conflict is real |
| `CommandFiles.TruncateOutputs` | src/command_runner/internal/io_files.rs:730-740 | stdout before stderr; a failure leaves stderr's file and everything else as it was |
| `CommandFiles.CheckedCommit` | src/command_runner/internal/io_files.rs:239-268 | checks before truncation are enough for what a commit promises |
| `Environment.BuilderIsFaithful` | src/command.rs:447-514 | for every sequence of set, remove and clear calls and every inherited environment, the stored changes have the effect of the calls in order |
| `Environment.StoreActs` | src/command.rs:447-514 | one call changes the effect of what is stored exactly as it would change the environment |
| `Environment.StoredKeysAreApart` | src/command.rs:447-514 | stored keys stay distinct and set and removed keys stay disjoint, up to key equality |
| `Environment.CommandEnvironment.EnvOs` | src/command.rs:447-458 | earlier settings and removals of the key give way to the new pair |
| `Environment.CommandEnvironment.EnvRemoveOs` | src/command.rs:489-498 | earlier settings and removals of the key give way to one removal |
| `Environment.CommandEnvironment.EnvClear` | src/command.rs:509-514 | everything stored is dropped and inheritance is off |
| `Environment.ConfigureEnvironment` | src/command_runner/internal/process_setup.rs:21-31 | whatever the process inherits, it gets exactly the effect of the stored changes |
| `Environment.BuildAndConfigure` | src/command_runner/internal/process_setup.rs:21-31 | from the builder calls to the child: its environment is the calls' meaning in order |

## Left out

- Redaction, `Display`, logging, getters, builder setters, UTF-8 views, run options, command text: no logic that the properties above depend on.
- System calls, process groups, Job Objects and file handles: replaced by arbitrary answers or by abstract file identity; one error kind stands for each platform's way of saying that a process tree is gone.
- The loop that writes stdin bytes: a simple prefix invariant; the writer enters by its final result only.
- Thread panics and poisoned locks: a panicked reader is one more read failure, a panicked writer one more write failure.
- Fairness, and how long joins and blocking waits take: the code promises no bound, so only safety and the polling bound are proved.
- `OutputCollector.OutputDrain.ReadOutputInner`: runs without interference by the other reader; interference is the subject of `RunMachine`, which runs the same step machine under every schedule; an end of file that the wait reports, as only Windows does, is not tied to the pipe data.
- `OutputCollector.TeeFailureNeverStopsDraining`: speaks of a budgeted reader only while its peer stands still; `TeeFailures.TeeFailureNeverStopsARun` is the statement for whole runs.
- `OutputCollector.TeeFailureIsKept`: speaks of a budgeted reader only while its peer stands still; `ReaderTheorems.TeeFailureSurvivesEveryRun` is the statement for whole runs.
- `OutputCollector.EveryCollectorRun`: speaks of a budgeted reader only while its peer stands still, `ReaderTheorems.ReaderInEveryRun` of whole runs; a reader without cancellation token is covered as one whose token is never set; its millisecond pause on a blocked read is not modelled.
- `Monitoring.WaitForEvent`: a script that ends quietly yields no event, which stands for monitoring that goes on.
- `RunningCommands.WaitForCompletion`: the answers of the child and of the helpers while they are polled come from the scripts; they are not part of the child's recorded calls, and a helper reported finished is not tied to its reader here, as it is in `RunMachine`.
- `CommandIo.CollectOutputResults`: a stdin error that is not a write failure is not modelled; joining the writer never produces one.
- `StartingCommands.StartingCommand.SetStdoutReader`: what dropping a replaced reader would do is not modelled; startup sets each helper once.
- `CommandFiles.IoFiles.Commit`: other processes do not change the file system during one commit; between preparing and committing they may change anything.
- `CommandFiles.Prepare`: joining a relative path to the current directory is part of the abstract meaning of a name.
- `Environment.BuilderIsFaithful`: names are compared by an arbitrary folding function, so the spelling a platform keeps and names too long for the Windows comparison are not modelled.
- Capacity reservations, scheduling of output chunks beyond 8 KiB buffers, benchmarks and examples: no effect on results.
