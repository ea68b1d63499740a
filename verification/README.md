# Verified model of Conflow-CI's distributed task run

Conflow-CI splits a pipeline task into shell commands, publishes them to a RabbitMQ work queue, lets one worker
per endpoint run them, and gathers the results from an output queue and an error queue. This project models that
run and the code around it, and proves what the run keeps, when it returns, and what it has computed then.

## The parts

- `TaskRun` is one call of `RunTaskOnAllMachines` as a step system. `Step` lists the atomic actions of the
  orchestrator, the endpoint goroutines, the broker, the workers and the two collectors; `Enabled` says when one is
  possible and `Apply` what it does. The state holds the orchestrator's phase, the three WaitGroup counters, the
  command queue, each worker's link, pushed deliveries, program counter and response stream, and for each result
  queue its collector and the collector's buffer. The broker may push any number of commands to any worker. `Runs`
  are all interleavings with arbitrary worker crashes; `CleanRuns` are those in which a worker crashes only while it
  has no result published and unacknowledged and no finish signal under way (`Redoable`).
- `TaskRunInvariants` and `TaskRunSteps` state and prove what every step keeps; `TaskRunSafety`, `TaskRunResults`,
  `TaskRunProgress`, `TaskRunStuck` and `TaskRunCompletes` hold the theorems about whole runs. `TaskRunRedelivery`
  has the exact conditions under which crashes do no harm, `TaskRunCollectors` the runs in which a collector cannot
  subscribe, and `TaskRunCrash` concrete runs. `TaskRunFreedom` and `TaskRunOrders` show that the runs include what
  the source allows: no goroutine waits for more than it does there, any call may fail, any worker may hold any
  commands, and every order of completion happens. `TaskRunTraces` builds possible runs, so that what a theorem says can
  happen is shown to happen.
- `Publish` is the retry loop against a broker with a direct exchange (AMQP 0-9-1, section 3.1.3.1). `Call` is the
  same loop as a protocol, one attempt per step, and is what `TaskRun` uses for both of its publishes.
- `TaskExecutor` is the object the caller sees: `NewTaskExecutor` expands the commands, and `RunTaskOnAllMachines`
  drives the step system with an arbitrary scheduler and stores the result.
- `FanOut` and `Build` are the goroutines that append to a shared slice under a mutex, with lock, read, write and
  unlock as separate steps. `RepoSync` is clone-or-fetch, `Paths` the worktree directories under lexical cleaning.
- `Host`, `Pipeline`, `Substitution` and `Text` are addresses, pipeline validation, `{file}` substitution and the
  string functions these need. `Bags` holds sums over sequences.

## Where a natural claim is false

- `CompletedTask` is never assigned: a run without failing commands returns in `RunningTask`
  (`TaskRunResults.CompletedRunRefinesLoop`).
- A completed run need not refine the plain loop when workers crash. A worker that crashes anywhere between the
  publish of a result and its acknowledgement has its command run again by another worker, and a second result is
  published. If the crash comes before the finish signal, a result may be stored twice although every finish was
  counted once (`TaskRunRedelivery.Republished`, `StoresOneTooMany`); if it comes after, the finish may also be counted
  twice, so that `wg.Wait()` passes with a command unrun, the run returns `["a", "a"]` where the loop gives
  `["a", "b"]`, or `wg` goes below zero, which panics (`TaskRunCrash`). `CrashSafeExactly` says which crashes keep the
  invariant; `RefinesExactly`, `WaitMeansAllFinished` and `NeverPanicsExactly` say for which tasks no crash can do
  this: those with at most one endpoint, or with no command (for `wg.Wait()`, at most one).
- `runner.go:95` ignores the result of `Publish`, `runner.go:91` skips a command whose publisher cannot be created,
  and a publish may return nil for a message in no queue. In a run without harmful crashes `wg` then never reaches
  zero, or `cmdResWg` does not if it was a result: `TaskRunStuck.ExactLoss` says where the counters stop, and
  `TaskRunCompletes.SkippedCommandHangs`, `VanishedCommandHangs`, `DroppedResultHangs` and `VanishedResultHangs` are
  runs that hang. With a harmful crash a finish counted twice may stand in for the skipped command
  (`TaskRunRedelivery.PassesWithSkipped`); `TaskRunStuck.ExactLossWithCrashes` has the balance for every run.
- When a collector cannot subscribe, a clean run hangs at `cmdResWg.Wait()` if some command has a result for it
  (`TaskRunCollectors.BrokenLaneHangs`). If none has, `runner.go:138` or `runner.go:142` returns `err`, which is nil
  there: the caller sees success and no results. In a clean run that can happen exactly when there are endpoints and
  commands and the commands all succeed or all fail (`TaskRunCollectors.CleanFalseSuccessExactly`). Over all runs,
  success with wrong fields can be reported exactly when there are commands and either two endpoints, or one and the
  commands all succeed or all fail (`TaskRunCollectors.FalseSuccessExactly`).
- With no matching endpoint and at least one command the run never returns (`TaskRunCompletes.NoEndpointsNeverReturns`).
- The comment at `publish.go:96` takes one quiet millisecond for acceptance. A later return makes the call report
  success for a message no queue received, exactly when no attempt before it was sent with a queue bound
  (`Publish.LostExactly`).
- A number above 65535, or below zero, given as a port is reduced modulo 65536, not refused: `h:-1` means port 65535
  (`Host.PortKeptExactly`, `Host.SignedPort`).
- `RemoveRepositoryWorkspace` looks at the error of the call only, and the provider puts a refused
  `git worktree remove` into its response: a removal that git refuses is never reported (`Build.RefusalsUnreported`).
- The worktree directory does not identify repository and branch (`Paths.WorktreesCollide`), and with a slash in a
  build name, which validation accepts, not even the two names joined (`Paths.NestedNamesCollide`).
- A clone followed by a failed fetch leaves no metadata file, so the next sync clones again
  (`RepoSync.WedgedAfterFailedFetch`).
- A file list that is present and empty passes validation with a pattern, and yields no command
  (`TaskExecutor.FilesYieldCommands`).

## Model

| member | source | states |
|---|---|---|
| TaskRunSafety.Conservation | internal/sync/runner.go:23-134 | In every state a clean run reaches, each command is in exactly one of: unsent, skipped, command queue, unfinished at a worker, signalled, handled. `wg` is N minus the signals handled, `cmdResWg` N minus the results counted down; neither goes below zero. Results published, vanished or given up are exactly those of commands past their publish, one each |
| TaskRunSafety.PhaseSeparation | internal/mq/consume.go:111-147 | Once `wg` is zero, so before `cancel()` and before a collector starts, every command has exactly one result published, vanished or given up, the command queue is empty, nothing was skipped, and no worker has anything left to run, publish or report |
| TaskRunSafety.NoPanic | internal/sync/runner.go:71-75 | No step a clean run can take makes a WaitGroup counter negative |
| TaskRunSafety.AllRunsSafe | internal/mq/consume.go:111-147 | With any crashes, every reachable state keeps one owner per command, truthful result queues, and a result published, vanished or given up before every acknowledgement and finish signal |
| TaskRunSafety.CleanRunsSafe | internal/sync/runner.go:15-153 | Every state of a clean run also satisfies conservation, the match of results with publishes, and the match of given-up results with error responses |
| TaskRunSafety.OneResultEach | internal/mq/consume.go:119-130 | No command's result is published, vanished or given up twice, and no message carries anything but a command's result |
| TaskRunSteps.KeepsInv | internal/mq/consume.go:111-147 | Every step, crash included, keeps the invariant of all runs |
| TaskRunSafety.KeepsCleanInv | internal/sync/runner.go:85-152 | Every clean step keeps the invariant of clean runs |
| TaskRunResults.CompletedRunRefinesLoop | internal/sync/runner.go:87-152 | For any number of endpoints and any interleaving, a completed clean run leaves, as multisets, the outputs of succeeding commands in `Outputs` and of failing ones in `Errors`, as a plain loop does; the state is `CompleteTaskWithErrors` exactly when some command failed and otherwise `RunningTask`; N entries in all |
| TaskRunOrders.ResultsExactly | internal/sync/runner.go:87-152 | Some clean run completes with these fields if and only if they are those of the plain loop up to order, and there is an endpoint or no command: no run leaves others, and every rearrangement is left by some run |
| TaskRunOrders.AnyOrder | internal/mq/consume.go:111-147 | For every order of completion and every split of the commands among the workers, some clean run stores the results in that order |
| TaskRunOrders.ConsumerErrorReturned | internal/sync/runner.go:105-116 | When the first or the second result consumer cannot be created, a run returns an error and stores nothing |
| TaskRunFreedom.AnyAssignment | internal/mq/consume.go:96-113 | For every assignment of commands to endpoints, and every order, a clean run reaches the state in which each worker has been pushed exactly its commands and has taken none: no prefetch limit is set |
| TaskRunFreedom.OneHoldsAll | internal/mq/consume.go:96-113 | In particular one worker can hold all N commands unacknowledged |
| TaskRunFreedom.DeliveryFree | internal/mq/consume.go:96-113 | In any reachable state the broker may push any queued command to any consuming worker, whatever that worker is doing or already holds |
| TaskRunFreedom.WorkerFree | internal/mq/consume.go:111-147 | In any reachable state a consuming worker waits for nothing but a delivery: its next action is possible whatever the others do, each attempt may end in any way, and it may crash |
| TaskRunFreedom.EndpointFree | internal/sync/runner.go:40-61 | An endpoint that is connecting may connect, be refused or break |
| TaskRunFreedom.OrchestratorFree | internal/sync/runner.go:85-134 | The orchestrator waits for its three WaitGroups only, and each of its calls may fail |
| TaskRunFreedom.CollectorFree | internal/mq/consume.go:150-178 | A collector waits for a message only, and may fail to subscribe |
| TaskRunFreedom.OthersDoNotBlock | internal/mq/consume.go:111-147 | No step of anyone else takes away a step a worker could take, unless it takes the command to be delivered or ends the process, and the worker then does the same |
| TaskRunFreedom.BacklogInOrder | internal/mq/consume.go:111-141 | A worker handles its deliveries in the order they were pushed |
| TaskRunFreedom.StreamInOrder | internal/mq/consume.go:140-141 | Its finish signals arrive in the order sent, each for the delivery it has just handled |
| TaskRunResults.LaneRefines | internal/mq/consume.go:165-173 | A buffer that holds one truthful message for each command of one exit status is a rearrangement of what the loop collects for it |
| TaskRunResults.BuffersStable | internal/sync/runner.go:134-151 | After `cmdResWg.Wait()` both buffers hold all N results and no enabled step changes either |
| TaskRunResults.OtherReturnsStoreNothing | internal/sync/runner.go:106-143 | A run that returns before storing, whatever crashed, leaves outputs and errors empty and the state `RunningTask` |
| TaskRunProgress.StepFalls | internal/mq/consume.go:111-177 | Every step but a crash lowers a weight over the positions of commands and results |
| TaskRunProgress.CrashRises | internal/mq/consume.go:111-141 | A crash raises the weight by at most 21N, since a worker holds at most N unacknowledged deliveries |
| TaskRunProgress.EveryRunEnds | internal/sync/runner.go:85-152 | Every run of N commands on W endpoints has at most 33N + 2W + 12 steps, plus 21N + 1 for each of at most W crashes |
| TaskRunStuck.ExactLoss | internal/sync/runner.go:85-134 | A clean run that can take no step but a crash has returned; or waits at the barrier with an endpoint refused; or waits with `wg` equal to the commands that never got into the queue or are left in it with no consumer; or drains with `cmdResWg` equal to the finish responses that carried an Error plus the results whose message vanished or that are left with no collector |
| TaskRunStuck.ExactLossWithCrashes | internal/sync/runner.go:87-134 | Whatever crashes, where a run can go no further: if it waits for finish signals, `wg` is the number of commands skipped or left queued with no consumer, plus the finish signals a crash dropped, minus the deliveries requeued after their finish signal; if it drains, `cmdResWg` is the number of results given up, vanished or left with no collector, plus the commands skipped, queued or left with a stopped worker, minus the deliveries requeued after their result |
| TaskRunStuck.CompletesIffNothingLost | internal/sync/runner.go:85-152 | A clean run that can take no step but a crash has returned if and only if no endpoint was refused, no command was skipped or left queued, and (unless a consumer could not be created) no finish response carried an Error and no result vanished or was left queued |
| TaskRunStuck.NoDeadlock | internal/sync/runner.go:85-134 | With no endpoint refused, a worker consuming, nothing skipped, no message vanished and no publish or subscription failed, a run that has not returned can take a step |
| TaskRunStuck.StuckWaiting | internal/sync/runner.go:87-100 | Where it waits for finish signals, `wg` is the number of commands skipped or queued, and queued ones have no consumer |
| TaskRunStuck.StuckDraining | internal/sync/runner.go:121-134 | Where it drains, `cmdResWg` is the number of results given up, vanished or queued, and the given-up ones are those whose finish response carried an Error |
| TaskRunStuck.StuckAtBarrier | internal/sync/runner.go:34-85 | Where it waits at the barrier, some endpoint goroutine returned before reporting ready |
| TaskRunCompletes.EveryFaultlessRunCompletes | internal/sync/runner.go:85-152 | With an endpoint, or no commands, every message accepted by its tenth attempt, and workers that break or crash only with nothing half published and another worker left, every run has at most 33N + 2W + 12 steps, and 21N + 1 more per crash, and where it can go no further it has returned with the result of the plain loop |
| TaskRunCompletes.SkippedCommandHangs | internal/sync/runner.go:87-100 | For every task with endpoints and commands, a run in which one publisher cannot be created waits for ever with `wg` at 1 |
| TaskRunCompletes.DroppedResultHangs | internal/mq/consume.go:119-140 | For every such task, a run in which one result's publish fails ten times waits for ever with `cmdResWg` at 1 |
| TaskRunCompletes.VanishedCommandHangs | internal/mq/publish.go:88-98 | For every such task, a run in which the publish of one command returns nil for a message in no queue waits for ever with `wg` at 1 |
| TaskRunCompletes.VanishedResultHangs | internal/mq/publish.go:88-98 | For every such task, a run in which the publish of one result does so waits for ever with `cmdResWg` at 1, although no finish response carried an Error |
| TaskRunCompletes.EveryStateCanComplete | internal/sync/runner.go:85-152 | Whatever such a run has done so far, it can go on without lasting faults to return with the result of the plain loop |
| TaskRunCompletes.NoEndpointsNeverReturns | internal/sync/runner.go:34-100 | Without endpoints every run with commands stays at `wg` = N for ever |
| TaskRunCrash.NoLostWork | internal/mq/consume.go:113-141 | Whatever crashes, every command is unsent, skipped, queued, held unacknowledged or acknowledged, exactly one of these; an acknowledged or signalled one has had its result published, vanished or given up |
| TaskRunRedelivery.CrashSafeExactly | internal/mq/consume.go:119-141 | From any state of a clean run, a crash keeps the invariant if and only if the worker has no result published and unacknowledged and no finish signal under way |
| TaskRunRedelivery.RefinesExactly | internal/sync/runner.go:87-152 | Every run that stores results, whatever crashes, refines the plain loop, if and only if the task runs on at most one endpoint or has no command |
| TaskRunRedelivery.WaitMeansAllFinished | internal/sync/runner.go:71-100 | Whatever crashes, every command has a result when `wg.Wait()` passes, if and only if there is at most one endpoint or at most one command |
| TaskRunRedelivery.NeverPanicsExactly | internal/sync/runner.go:71-75 | Whatever crashes, no WaitGroup counter goes below zero, if and only if there is at most one endpoint or no command |
| TaskRunRedelivery.OneWorkerSafe | internal/sync/runner.go:85-152 | With a single worker every run, whatever crashes, is without panic, has one result per command once `wg` is zero, refines the loop if it stores, and has drained every result if it returns for a collector |
| TaskRunRedelivery.StoresOneTooMany | internal/mq/consume.go:119-141 | For every task with two endpoints and a command, a run in which a crash after a publish and before the finish signal makes it return N + 1 results |
| TaskRunRedelivery.WaitsTooShort | internal/mq/consume.go:140-141 | For every task with two endpoints and two commands, a run in which `wg.Wait()` passes while the last command has no result |
| TaskRunRedelivery.PassesWithSkipped | internal/sync/runner.go:87-100 | For every such task, a run in which `wg.Wait()` passes although the last command was skipped |
| TaskRunCollectors.BrokenLaneHangs | internal/mq/consume.go:150-163 | In a clean run, if a collector could not subscribe and some command has a result for it, the run is still draining, with `cmdResWg` above zero |
| TaskRunCollectors.CollectorErrorMeans | internal/sync/runner.go:136-143 | A clean run that returns at one of these lines had no result for the broken collector: every command failed, or every command succeeded |
| TaskRunCollectors.FalseSuccessExactly | internal/sync/runner.go:134-152 | Whatever crashes: some run returns a nil error with other fields than the plain loop leaves, if and only if there are commands, and either two endpoints, or one and the commands all succeed or all fail |
| TaskRunCollectors.CleanFalseSuccessExactly | internal/sync/runner.go:134-152 | Some clean run does so if and only if there are endpoints and commands and the commands all succeed or all fail |
| TaskRunCollectors.ReportsFalseSuccess | internal/sync/runner.go:119-143 | For every such task, the run: the needless collector cannot subscribe, all results are drained, none is stored, nil is returned |
| TaskRunCrash.CrashAfterSignal | internal/mq/consume.go:140-141 | A run in which a crash between signal and acknowledgement brings `wg` to zero with command 1 still queued |
| TaskRunCrash.EarlyReturn | internal/sync/runner.go:100-152 | That run goes on to return the output of command 0 twice and of command 1 not at all |
| TaskRunCrash.NegativeCounter | internal/sync/runner.go:71-75 | Or it goes on to handle the third finish signal, and the counter goes below zero |
| Publish.Publisher.PublishWithRetry | internal/mq/publish.go:56-102 | The call returns nil at the first of the ten attempts that is sent while a queue is bound under the key, or with no return in time; each queue bound under the key at that attempt then holds one more copy of the message, every other queue is unchanged, and an error changes none and names ten attempts and the last failure; after k failed attempts it has slept 500, 1000, ... ms, 500(2^k - 1) in all |
| Publish.ExactlyOnce | internal/mq/publish.go:61-101 | If returns arrive in time and the key names at most one queue, at most one copy is enqueued, and nil is returned exactly when one is, and exactly when some attempt is sent while a queue is bound, however bindings change between attempts |
| Publish.OneCopyInOneQueue | internal/mq/publish.go:61-101 | Under the same assumptions, on the queues themselves: nil exactly when one queue has got the message once and no other has changed; an error exactly when none has |
| Publish.LostExactly | internal/mq/publish.go:66-98 | The call returns nil and has changed no queue, if and only if some attempt is sent with no queue bound and a return after the check, and none before it was sent with a queue bound |
| Publish.ExactlyOnceExactly | internal/mq/publish.go:66-98 | Where the key names at most one queue, nil means exactly one copy if and only if no attempt with a late return and no queue bound comes before every attempt sent with a queue bound |
| Publish.LateReturnLosesMessage | internal/mq/publish.go:88-98 | For instance: a first attempt with no queue bound and a late return gives nil for a message in no queue |
| Publish.ExhaustionPause | internal/mq/publish.go:57-101 | The pauses of a call sum to 511500 ms exactly when it gives up, and to less when it returns nil |
| Publish.CallSettles | internal/mq/publish.go:66-101 | The step-by-step protocol used inside a task run settles as accepted or given up as the loop does, by the verdict of the loop's first passing attempt |
| Publish.DecisiveExactly | internal/mq/publish.go:66-101 | That verdict is a vanished message exactly when an attempt with no queue bound and a late return comes before every attempt sent with a queue bound, and a failure exactly when the call returns an error |
| Publish.Broker.Route | internal/mq/publish.go:68-80 | A mandatory message is added once to each queue bound under its own key and to no other, and is returned if and only if no binding has the key |
| TaskExecutor.TaskExecutor.RunTaskOnAllMachines | internal/sync/runner.go:15-153 | Under any scheduler the call follows the clean run of the scheduler's choices, step by step from the initial state, until it has returned or the choice cannot be taken. It returns exactly when that run has, and gives an error if and only if a result consumer could not be created. When it collected, the fields are those of the run's end and refine the plain loop, otherwise outputs and errors are untouched; with a scheduler that takes a possible step whenever there is one, it returns if and only if nothing was lost |
| TaskExecutor.Drive | internal/sync/runner.go:85-134 | Driving the steps ends, after exactly the chosen clean run, with a collected result that refines the loop, or stuck where something was lost |
| TaskExecutor.FollowsOneRun | internal/sync/runner.go:85-134 | What is followed is a clean run, and the choices determine it and its end |
| TaskExecutor.EveryRunChosen | internal/sync/runner.go:85-134 | Every clean run that takes no step after it has returned is what some choice by state leads to: no interleaving is missed |
| TaskExecutor.NewTaskExecutor | internal/sync/executor.go:19-66 | The executor starts in `StartingTask` with the workspace paths of the listed files or the files found, the cross product of commands and files, and the selected machines; it fails exactly when the files had to be asked for and were not given |
| TaskExecutor.ExpandCommands | internal/sync/executor.go:47-53 | The two nested loops build the cross product |
| TaskExecutor.CrossProductLayout | internal/sync/executor.go:47-53 | There are commands times files entries, and entry i*files + j is command i with file j |
| TaskExecutor.WorkspaceFiles | internal/sync/executor.go:41-45 | The file loop gives each listed file, in order, the path made of the elements of the build directory, the workspace and the name |
| TaskExecutor.GetTasksMachine | internal/sync/executor.go:69-77 | The loop gives the endpoints the task lists, in configuration order |
| TaskExecutor.SelectedExactly | internal/sync/executor.go:69-77 | Each listed endpoint is selected as often as it is configured, every other one never |
| TaskExecutor.SelectedInOrder | internal/sync/executor.go:69-77 | The selection keeps the order of the configuration |
| TaskExecutor.FilesYieldCommands | pkg/config/pipeline.go:26-47 | An accepted task with a file list yields commands exactly when the list is not empty |
| TaskExecutor.CommandsFreeOfPlaceholders | internal/sync/executor.go:41-53 | With an absolute home and no opening brace in the names, no command of the task contains `{file}` |
| Substitution.PlaceholderFreeExactly | internal/sync/executor.go:50-50 | For an absolute path, no command expands to one with a placeholder if and only if the path contains none and no ending of it begins one |
| Substitution.NoPlaceholder | internal/sync/executor.go:50-50 | With such a path no expansion contains a placeholder, also none formed across the seams |
| Substitution.UnsafeCommand | internal/sync/executor.go:50-50 | For every other path a command whose expansion contains one |
| Substitution.NothingExpanded | internal/sync/executor.go:50-50 | A command without a placeholder stays as it is |
| Substitution.FirstExpanded | internal/sync/executor.go:50-50 | The first placeholder becomes the file, the text before it stays, and the text after it is expanded likewise |
| Text.ReplaceAllLength | internal/sync/executor.go:50-50 | The expansion is longer by the number of replaced occurrences times the difference in length |
| Text.ReplaceByItself | internal/sync/executor.go:50-50 | Substituting the placeholder itself changes nothing |
| FanOut.NoLostUpdate | internal/sync/util.go:23-27 | Under any interleaving of lock, read, write and unlock, after `wg.Wait()` the slice is the multiset sum of all goroutines' contributions |
| FanOut.Progress | internal/sync/util.go:23-27 | Until then some step is possible and brings the end nearer: the mutex causes no deadlock |
| FanOut.KeepsExclusive | internal/sync/util.go:24-26 | Only the holder of the lock is inside, and what it has read is the current slice |
| FanOut.KeepsComplete | internal/sync/util.go:24-26 | Slice and outstanding appends together stay the sum of all contributions |
| FanOut.LostWithoutMutex | internal/sync/util.go:23-27 | Without the lock, for any two elements, a run of two goroutines that loses one |
| Build.BuildAllEndpointsComplete | internal/sync/build.go:174-214 | `BuildAllEndpoints` returns exactly the contributions of all endpoints: one entry each, one more for each build that returned an error, and every endpoint's output |
| Build.BuildsReported | internal/sync/build.go:174-214 | In the returned list every endpoint has an entry under its name, with the output of its commands if they ran, and with an error, ending with the reason, unless the build went well; every entry is about one of the endpoints, has no output but its commands', and an error only if its build went wrong |
| Build.BuildErrorsReported | internal/sync/build.go:44-98 | The list has two errors for every build that returned one and one for every refused worktree; it has some if and only if some build went wrong |
| Build.ErrorNamesCause | internal/sync/util.go:10-21 | The text ends with the response's reason, else with the call's error, and is empty only without either |
| FanOut.CanFinish | internal/sync/util.go:23-27 | From every such state all goroutines can run to their wg.Done() |
| FanOut.AnyOrder | internal/sync/util.go:23-27 | Every order in which the goroutines can take their turns is the order of the slice after some run |
| Build.RemovalsReported | internal/sync/build.go:100-145 | The removal list has one element per endpoint and as many errors as calls to the provider failed; it has as many errors as worktrees were left in place if and only if git refused none of the removals |
| Build.ErrorsMeanFailedCalls | internal/sync/build.go:109-145 | The list holds an error if and only if some call to the provider failed |
| Build.RemovalErrorNamesCause | internal/sync/build.go:109-114 | A removal gives an error exactly when the call failed, and it ends with the call's |
| Build.RefusalsUnreported | internal/provider/github/util.go:112-125 | When git refuses every removal, a run whose list has only nils |
| RepoSync.RepositoryHost.SyncRepository | internal/sync/build.go:217-255 | One sync succeeds exactly when the file existed or the clone was done, the fetch was done and the write saved; its error names the first of these that went wrong. It clones exactly without the file, fetches unless a clone failed, and writes exactly after a fetch that was done |
| RepoSync.RepositoryHost.CreateMetadataFile | internal/sync/build.go:274-320 | The file exists afterwards if it did before or the write created it; the call succeeds only if the write did |
| RepoSync.MetadataExactly | internal/sync/build.go:217-267 | From an empty host: the metadata file exists after any sequence of syncs if and only if on some day clone, fetch and the write of the file succeed, or the write fails after creating it |
| RepoSync.MetadataMeansCloned | internal/sync/build.go:217-255 | From an empty host: if the metadata file exists after any sequence of syncs, one sync cloned and fetched with success, every sync up to it cloned and none after it |
| RepoSync.NeverClonesAgain | internal/sync/build.go:221-246 | Once the file exists it stays, and no sync clones |
| RepoSync.NoMetadataMeansClones | internal/sync/build.go:221-246 | If it still does not exist, every sync so far has cloned |
| RepoSync.WedgedAfterFailedFetch | internal/sync/build.go:223-237 | After a clone with a failed fetch, if later clones are refused, every later sync fails in the clone |
| Paths.WorktreeAgreement | internal/sync/build.go:46-69 | For all homes, names and branches, the directory the build changes into is the one the worktree was added at |
| Paths.RepoDirParts | internal/sync/build.go:46-48 | A repository lies in the build directory of the home, under its name |
| Paths.WorktreeBesideRepository | internal/sync/build.go:100-108 | For a simple repository name under an absolute home, that directory is `name-branch` in the build directory |
| Paths.WorktreesCollide | internal/sync/build.go:57-62 | Repository `a-b` on branch `c` and repository `a` on branch `b-c` have the same worktree |
| Paths.SameWorktreeExactly | internal/sync/build.go:57-62 | For build names and branches whose elements between slashes are not empty, `.` or `..`: two worktrees are the same if and only if the directories of the build names, followed by the elements of the joined names, are |
| Paths.SimpleWorktreeExactly | internal/sync/build.go:57-62 | For build names without slashes: if and only if the joined names are |
| Paths.NestedNamesCollide | internal/sync/build.go:57-62 | With a slash in a build name, a family of pairs with one worktree and different joined names |
| Paths.WalkCleaned | internal/sync/build.go:47-48 | Resolving a relative path and then its result below any directory gives what resolving it there gives |
| Paths.CleanTwice | internal/sync/build.go:69-69 | Cleaning a cleaned path changes nothing |
| Paths.CleanForm | internal/sync/build.go:47-48 | A cleaned path consists of exactly the resolved elements, after an empty one if it is absolute; it is `.` if there are none |
| Host.ParsePrinted | pkg/config/host.go:28-63 | Parsing a printed endpoint gives back host and port, for every host without a colon and every port |
| Host.ParseIsStable | pkg/config/host.go:28-63 | Parsing, printing and parsing again is parsing once, for every accepted address |
| Host.PrintedForm | pkg/config/host.go:58-63 | The printed form is the host alone for port 0, else host, colon and the port's digits without superfluous zeros |
| Text.CanonicalUnique | pkg/config/host.go:58-63 | and these digits are determined by the port |
| Host.PortKeptExactly | pkg/config/host.go:36-43 | For every port text: it is accepted exactly when it is a number that fits an int; the port is congruent to it modulo 65536, and equal to it exactly when it is between 0 and 65535 |
| Host.OnlyNumbersAccepted | pkg/config/host.go:36-43 | A port text that is not digits with at most one sign is refused, with an error that names it |
| Host.SignedPort | pkg/config/host.go:36-43 | Digits below 65536 are kept, and with a minus sign give 65536 less that number |
| Host.ThirdPartIgnored | pkg/config/host.go:30-43 | What follows a second colon has no effect |
| Host.ValidateParseHosts | pkg/config/host.go:9-25 | All hosts good: one endpoint each, in order, with its name. Otherwise the empty list and the error of the first bad host |
| Host.HostProblem | pkg/config/host.go:12-21 | The error of one host: of its port first, then for an empty host, then for an empty name |
| Host.ValidateEndpoint | pkg/config/host.go:48-56 | Accepts exactly the endpoints with a host and a name; a missing host is reported first |
| Pipeline.Config.ValidatePipeline | pkg/config/pipeline.go:3-49 | Every task is defaulted even when validation fails; nil exactly for a complete pipeline; otherwise the first error in the order of the checks and of the tasks |
| Pipeline.Defaulted | pkg/config/pipeline.go:4-10 | A task runs in parallel unless it says otherwise, an explicit setting is kept, and nothing else changes |
| Pipeline.TaskProblem | pkg/config/pipeline.go:26-47 | A task has no error exactly when it has a name, machines, commands, and either a pattern or files; each error is given exactly when its check is the first that fails |

## Left out

- Wall-clock time: the three-second sleep before publishing is not modelled, and whether a return beats the one-millisecond check is a parameter of each attempt.
- TaskRunResults.CompletedRunRefinesLoop: speaks of clean runs, because the claim is false with other crashes; `TaskRunRedelivery` gives the exact conditions.
- TaskRun takes a routing key to lead to at most one queue, as the three bindings of `runner.go:26-32` do: an attempt puts one copy of a message into its queue or none.
- The outcome of a command is a fixed function of its index, so running a redelivered command again gives the same output; commands with other effects, or none the second time, are not modelled.
- The order in which the broker delivers commands is not assumed; result queues are FIFO, and a collector takes results from the queue one at a time rather than from a prefetch buffer of its own.
- Failures of a worker after it has connected (closed delivery channel, lost stream, failed ack) appear only as a crash that requeues its deliveries and drops its unread responses.
- The global `ConsumerInstance` of `consumer_server.go` and listeners left by earlier `NotifyReturn` calls: one run on fresh queues is modelled.
- Nil pointers after a failed connection in `build.go:129-136` and `build.go:187-198`, and a nil provider response at `build.go:64`: connections and the call itself are taken to succeed there.
- The provider's git commands, the shell, and `GetFilesByRegex` are oracles (`Weather`, `BuildResult`, `found`); step trimming and joining in `BuildRepository` and the checksum and contents of the metadata file are not modelled.
- `os.ExpandEnv` on the build path (the home directory is a parameter) and symbolic links; path cleaning is lexical.
- `DependsOn` and `RunsInParallel` have no scheduler in the source; `NewConfig` discards the validators' results, so the lemmas about tasks take a validated one.
- Endpoint fields `User` and `PrivateKeyPath`, task identifiers, logging, error texts of a host, the success text sent in every finish response, and Go's `int` other than 64 bits.
- TLS, SSH, key generation, the webhook server, the GitHub provider, environment files and generated protobuf code.
