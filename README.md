# Mercury Concurrency Engine — a Dafny model of its core

Mercury Concurrency Engine (`mce`) is a C++ library. It runs stackful
coroutines on cooperative schedulers and threadpools, and it gives them
coroutine-aware synchronisation primitives: buffered and unbuffered channels,
a mutex, a condition variable and a timer service. Two Python scripts go with
it. One drives continuous integration and the other builds the Boost
dependency. This project models the deterministic core of each of these, one
Dafny module per source file:

| module | models |
|---|---|
| `PosixPath` | `os.path.join` for two components (used by both scripts) |
| `CiPipeline` | `script/continuous_integration.py`: googletest-style banners, `log`, `validate`, `validateCommands`, example discovery and the gcc-then-clang build matrix |
| `SetupBoost` | `script/setup-boost.py`: the Boost path names and the gate chain of `main` over a filesystem snapshot |
| `Scheduler` | `inc/mce/scheduler.hpp`: the packed load `measurement`, the lifecycle state machine, `schedule`, one `execute_co` step, unpark and `run` |
| `Threadpool` | `inc/mce/threadpool.hpp`: worker count, the rotating start cursor, the least-loaded `worker()` scan and the lifecycle fan-out |
| `Timer` | `inc/mce/timer.hpp` and `src/timer.cpp`: durations, `create_timer`, `remove`, `clear`, `count`, `running` and the expiry sweep of `check_timers` |
| `BaseChannel` | `inc/mce/base_channel.hpp`: the `result` enum, the channel iterator and the context comparisons |
| `BufferedChannel` | the shared context of `inc/mce/buffered_channel.hpp` |
| `UnbufferedChannel` | the shared context of `inc/mce/unbuffered_channel.hpp` |
| `ConditionVariable` | `inc/mce/condition_variable.hpp`: key pool, notify queue, `notify_one`/`notify_all`/`notify_with_key`, the flagged unparker of `wait_until` and the predicate waits |
| `Mutex` | `inc/mce/mutex.hpp` |
| `AwaitPool` | `inc/mce/await.hpp` and `src/await.cpp`: the await worker pool and the inline-or-worker decision of `schedule` |

Objects whose fields the source updates in place are classes. Their methods
carry `modifies` clauses and state the whole new state. The pure parts are
datatypes, functions and lemmas. Blocking is modelled without threads. A
blocking call that has to wait *parks*: it returns a `Parked(ticket)` step and
its request joins a FIFO queue. When a later operation resolves the request,
a *notice* records what the parked call returns. Exit codes, command output,
directory listings, the clock and the host filesystem's reaction to a command
are parameters (oracles).

## Model

| member | source | states |
|---|---|---|
| PosixPath.JoinRelative | script/setup-boost.py:60-65 | joining a non-empty root with a relative name ends in that name and differs from it, so a root-based path never equals the bare relative one |
| CiPipeline.Written | script/continuous_integration.py:33-38 | `log` writes a string value and silently drops anything that is not a string (the None error) |
| CiPipeline.NatToStringRoundTrip | script/continuous_integration.py:73 | the decimal text of the exit code uses only digits and parses back to the code |
| CiPipeline.ResultLogSuccess | script/continuous_integration.py:64-66 | exit code 0 writes exactly one OK banner with the command string |
| CiPipeline.ResultLogFailureNone | script/continuous_integration.py:64-73 | a non-zero code with the None error that `execute` returns writes the SEPARATOR and STDERR banners, drops the error, then writes FAILED and the ErrorCode line |
| CiPipeline.ResultLogFailureEmpty | script/continuous_integration.py:67-73 | a non-zero code with an empty error string writes only FAILED and the ErrorCode line |
| CiPipeline.ResultLogFailureText | script/continuous_integration.py:67-73 | a non-zero code with error text writes both banners, the text, FAILED and the ErrorCode line, in that order |
| CiPipeline.JobsSpec | script/continuous_integration.py:85-88 | the k-th job of a command list is that command under the current toolchain |
| CiPipeline.JobsEnv | script/continuous_integration.py:110-112 | every job of a stage runs under the toolchain set before it |
| CiPipeline.RanIsFirstFailurePrefix | script/continuous_integration.py:85-91 | the jobs run are a prefix of the list: all of it when every job passes, otherwise ending at the first failing job, with all before it passing |
| CiPipeline.AllPassCons | script/continuous_integration.py:85-91 | a list passes iff its first job exits 0 and the rest passes |
| CiPipeline.AllPassAppend | script/continuous_integration.py:113-118 | two stages in sequence pass iff both pass |
| CiPipeline.RanAppend | script/continuous_integration.py:104-118 | running two stages in sequence runs all of the first and then the second only if the first passed; otherwise it stops inside the first |
| CiPipeline.TranscriptIsConsoleWithoutOutput | script/continuous_integration.py:43-44 | the transcript file equals the console with every command's streamed output removed |
| CiPipeline.LexLeTotal | script/continuous_integration.py:135 | the string order used by `examples.sort()` is total |
| CiPipeline.Insert | script/continuous_integration.py:135 | one insertion step keeps the multiset of names and adds the new one |
| CiPipeline.InsertSorted | script/continuous_integration.py:135 | inserting into a sorted list keeps it sorted |
| CiPipeline.SortStrings | script/continuous_integration.py:135 | sorting is a permutation of the input |
| CiPipeline.SortStringsSorted | script/continuous_integration.py:135 | sorting yields a sorted list |
| CiPipeline.ExamplePathsMembers | script/continuous_integration.py:126-133 | a path is collected iff it is `PROJECT_ROOT/ex` joined with a listed name that contains `example_` and not `human_only` |
| CiPipeline.ExampleCommandsSpec | script/continuous_integration.py:126-138 | the example commands are exactly the filtered, joined names, as a sorted permutation |
| CiPipeline.ToolchainPlanEnv | script/continuous_integration.py:109-140 | every job planned for a toolchain block runs under that toolchain |
| CiPipeline.ClangOnlyAfterGccPasses | script/continuous_integration.py:104-147 | if any clang job runs, every gcc job passed |
| CiPipeline.Session.constructor | script/continuous_integration.py:11-12 | a session starts with empty console and transcript and the separator flag down |
| CiPipeline.Session.Log | script/continuous_integration.py:33-38 | a string goes to the console and the transcript, in the same order |
| CiPipeline.Session.LogAll | script/continuous_integration.py:33-38 | logging a list appends the strings of the list, in order, to both sinks |
| CiPipeline.Session.Execute | script/continuous_integration.py:40-48 | the exit code is the oracle's for the current toolchain, the error is None and the streamed output reaches the console only |
| CiPipeline.Session.PrintCommandSeparator | script/continuous_integration.py:53-59 | no blank line before the first separator, one before every later one; the flag is raised |
| CiPipeline.Session.PrintCommandPrepend | script/continuous_integration.py:61-62 | exactly one RUN banner with the command |
| CiPipeline.Session.PrintCommandResult | script/continuous_integration.py:64-73 | the lines written are those of the result banner for that code and error |
| CiPipeline.Session.Validate | script/continuous_integration.py:75-83 | runs the command once, answers true iff it exits 0, writes RUN then the result banners to the transcript and also the command output to the console |
| CiPipeline.Session.ValidateCommands | script/continuous_integration.py:85-91 | answers whether every command passes, runs exactly the prefix up to the first failure, and logs exactly those jobs |
| CiPipeline.Session.GatedStage | script/continuous_integration.py:113-114 | a stage followed by `verify_success` either passes with all its jobs run or stops the whole plan at its first failure; the transcript and the console grow by exactly the stage's lines (`StageLines`) |
| CiPipeline.Session.GatedPair | script/continuous_integration.py:113-118 | two gated stages pass iff both pass; the second runs only after the first passed; the jobs run are the prefix of the whole plan up to the first failure; each sink grows by exactly `PairLines` |
| CiPipeline.Session.RunToolchain | script/continuous_integration.py:109-140 | one toolchain block sets CC/CXX, passes iff its whole plan passes and runs exactly the plan's prefix up to the first failure; the transcript and the console grow by exactly `BlockLines`; the separator flag is up afterwards iff it was before or both unit stages passed |
| CiPipeline.Session.RunExamples | script/continuous_integration.py:120-140 | the example part prints its separator, builds, then runs the discovered examples, stopping at the first failure; each sink grows by exactly `ExampleLines`, and the separator flag is up afterwards |
| CiPipeline.Session.RunMatrix | script/continuous_integration.py:109-174 | gcc then clang: passes iff the whole plan passes and runs exactly its prefix up to the first failure; each sink grows by exactly `MatrixLines`, the clang block appearing only after the whole gcc plan passed; a pass leaves the clang environment |
| CiPipeline.Session.Start | script/continuous_integration.py:97-102 | the console gets the `CONTINUOUS_INTEGRATION_LOG[path]` line and then the unit-test separator; the transcript is truncated and then holds only that separator, with a blank line first when a separator was already printed; the flag is raised |
| CiPipeline.Session.Finish | script/continuous_integration.py:176-183 | logs the success or FAILURE verdict to both sinks and gives exit code 0 or 1 |
| CiPipeline.Session.BuildAndExecuteTests | script/continuous_integration.py:93-183 | for commands that start: exit code 0 iff every planned job passes; the jobs run are the plan's prefix up to the first failure; the transcript is exactly `RunLines` (separator, matrix, verdict) and the console is the path line followed by the same lines with each command's streamed output |
| CiPipeline.PairLinesCases | script/continuous_integration.py:113-118 | the lines of two gated stages are the first stage's alone when it failed, else both stages' lines |
| CiPipeline.ExamplesRun | script/continuous_integration.py:120-140 | after passing earlier stages, running the example build and then the examples only if the build passed runs exactly the whole plan's prefix up to its first failure |
| CiPipeline.PlanPassImpliesUnitsPass | script/continuous_integration.py:109-120 | a toolchain block whose whole plan passes passed both unit stages, so its example separator was printed |
| CiPipeline.StageTranscriptIsConsoleWithoutOutput | script/continuous_integration.py:85-91 | one stage's transcript lines are its console lines with no command output |
| CiPipeline.BlockTranscriptIsConsoleWithoutOutput | script/continuous_integration.py:109-140 | the same for a whole toolchain block |
| CiPipeline.RunTranscriptIsConsoleWithoutOutput | script/continuous_integration.py:93-183 | what a whole run writes to the transcript is what it writes to the console after the path line, with every command's streamed output removed |
| SetupBoost.UnderscoreVersionInjective | script/setup-boost.py:23-24 | `boost_{major}_{minor}_{patch}` determines the three parts when major and minor hold no underscore |
| SetupBoost.TarballInjective | script/setup-boost.py:26-27 | the tarball name determines the version |
| SetupBoost.BoostDirInjective | script/setup-boost.py:29-30 | the `boost/` directory name determines the version |
| SetupBoost.SplitAtUnderscore | script/setup-boost.py:23-24 | two underscore joins are equal only part by part when the left parts hold no underscore |
| SetupBoost.MarkerShortCircuits | script/setup-boost.py:60 | an existing marker file means no command runs, `boost built` is printed and the exit code is 0 |
| SetupBoost.ExitStatus | script/setup-boost.py:57-119 | for commands that start, every run ends either with exit 0 after `boost built` or with exit 1 after an `ERROR:` line |
| SetupBoost.EndsWell | script/setup-boost.py:60-119 | the same for a run continued from any trace |
| SetupBoost.UnpackEndsWell | script/setup-boost.py:77-119 | the same from the mkdir step on |
| SetupBoost.PrepareEndsWell | script/setup-boost.py:91-119 | the same from the `b2` check on |
| SetupBoost.CompileEndsWell | script/setup-boost.py:110-119 | the same from the build step on |
| SetupBoost.FailEndsWell | script/setup-boost.py:11-12 | `perror` then exit 1 ends with an `ERROR:` line and status 1 |
| SetupBoost.DownloadWithoutTarballFails | script/setup-boost.py:64-75 | a download that succeeds but leaves no tarball issues only `wget`, prints `boost tarball missing` and exits 1 |
| SetupBoost.FetchWithoutTarball | script/setup-boost.py:68-75 | the same for the download step alone |
| SetupBoost.BuildRunsWhenPrepared | script/setup-boost.py:91-116 | with the directory and `b2` present, the first command is the `b2` build with exactly the three `--with-*` flags and cwd the Boost root, followed only by the touch |
| SetupBoost.SuccessTouchesMarkerLast | script/setup-boost.py:110-119 | every successful run without a marker ends with the build and then the touch |
| SetupBoost.SuccessEndsWithBuild | script/setup-boost.py:60-119 | the same for a run continued from any trace |
| SetupBoost.UnpackSuccessEnds | script/setup-boost.py:77-119 | the same from the mkdir step on |
| SetupBoost.PrepareSuccessEnds | script/setup-boost.py:91-119 | the same from the `b2` check on |
| SetupBoost.CompileSuccessEnds | script/setup-boost.py:110-119 | the same from the build step on |
| SetupBoost.MarkerPathBasesDiffer | script/setup-boost.py:54-60 | the marker is checked under the root but touched as the bare name from the cwd, and the download runs in the cwd: the two path bases are different paths |
| SetupBoost.CompileIssues | script/setup-boost.py:110-116 | the build stage issues a subsequence of build, touch |
| SetupBoost.PrepareIssues | script/setup-boost.py:91-116 | the `b2` stage issues a subsequence of bootstrap, build, touch |
| SetupBoost.UnpackIssues | script/setup-boost.py:77-116 | the unpack stage issues a subsequence of mkdir, extract, bootstrap, build, touch |
| SetupBoost.CommandsFollowPlan | script/setup-boost.py:57-119 | the commands issued are a subsequence of wget, mkdir -p, tar, bootstrap, b2, touch, in that order |
| SetupBoost.DownloadOnlyWhenAllMissing | script/setup-boost.py:60-75 | `wget` is issued iff the marker, the Boost directory and the tarball are all missing, and then it is the first command |
| SetupBoost.NoWgetAfter | script/setup-boost.py:77-116 | no step after the download issues `wget` |
| SetupBoost.Machine.constructor | script/setup-boost.py:57-58 | a run starts from a filesystem snapshot with nothing printed or issued |
| SetupBoost.Machine.Execute | script/setup-boost.py:32-40 | a command is issued, the host's effect is applied and the answer is true iff the exit code is 0 |
| SetupBoost.Machine.Print | script/setup-boost.py:62 | a line is printed and nothing else changes |
| SetupBoost.Machine.PrintError | script/setup-boost.py:11-12 | prints `ERROR:` and the message and gives exit 1 |
| SetupBoost.Machine.SetupBoost | script/setup-boost.py:57-119 | the imperative gate chain produces exactly the exit code, commands, output and filesystem of the functional run |
| SetupBoost.Machine.PrepareAndBuild | script/setup-boost.py:91-119 | the `b2` check, bootstrap, build and touch produce exactly the functional stage's result |
| Scheduler.Saturate | inc/mce/scheduler.hpp:753-757 | a count is clamped to the half-word mask: unchanged when it fits, the mask otherwise |
| Scheduler.Measure | inc/mce/scheduler.hpp:753-757 | the packed weight holds the clamped enqueued count in the upper half and the clamped scheduled count in the lower |
| Scheduler.HalvesSplit | inc/mce/scheduler.hpp:799-802 | two half-words packed side by side fit in a word and unpack to themselves |
| Scheduler.MeasureRoundTrip | inc/mce/scheduler.hpp:790-796 | for counts within the mask, `enqueued()` and `scheduled()` return them unchanged and `blocked()` is their difference, wrapping modulo the word when enqueued exceeds scheduled |
| Scheduler.MeasureLexicographic | inc/mce/scheduler.hpp:771-787 | weights compare lexicographically: more enqueued is heavier, and scheduled breaks ties |
| Scheduler.MeasureZero | inc/mce/scheduler.hpp:745-757 | the weight is zero iff both counts are zero |
| Scheduler.CanContinueExactly | inc/mce/scheduler.hpp:927 | `can_continue_` holds exactly in the ready and running states |
| Scheduler.SuspendNext | inc/mce/scheduler.hpp:838-851 | suspend answers false and keeps halted when halted, otherwise answers true and suspends |
| Scheduler.ResumeNext | inc/mce/scheduler.hpp:853-862 | resume moves suspended to ready and leaves every other state alone |
| Scheduler.HaltNext | inc/mce/scheduler.hpp:864-869 | halt always ends halted |
| Scheduler.HaltedIsFinal | inc/mce/scheduler.hpp:838-869 | no sequence of requests leaves halted |
| Scheduler.HaltWins | inc/mce/scheduler.hpp:864-869 | any request sequence containing a halt ends halted |
| Scheduler.NonNullSpec | inc/mce/scheduler.hpp:1027-1034 | scheduling keeps exactly the non-null coroutines, and all of them when none is null |
| Scheduler.StepTally | inc/mce/scheduler.hpp:546-585 | one execution step keeps the queue no longer than the scheduled count |
| Scheduler.BoundedPreserved | inc/mce/scheduler.hpp:1027-1034 | scheduling and unparking keep the queue no longer than the scheduled count |
| Scheduler.CountedPreserved | inc/mce/scheduler.hpp:546-585 | with the corrected unpark, scheduling, every step and every unpark keep the scheduled count equal to queued plus parked coroutines |
| Scheduler.UnparkAsWrittenOvercounts | inc/mce/scheduler.hpp:352-357 | unpark through `schedule()` as written leaves the scheduled count one above the live coroutines |
| Scheduler.OvercountWitness | inc/mce/scheduler.hpp:560-568 | schedule one coroutine, park it, unpark it and complete it: as written the count ends at 1, corrected at 0 |
| Scheduler.YieldRotates | inc/mce/scheduler.hpp:579-584 | a yielding coroutine moves from the front to the back and the queue keeps its contents |
| Scheduler.Scheduler.constructor | inc/mce/scheduler.hpp:466-472 | a new scheduler is ready with an empty queue and a zero count |
| Scheduler.Scheduler.GetState | inc/mce/scheduler.hpp:832-836 | reports the lifecycle state |
| Scheduler.Scheduler.SuspendImpl | inc/mce/scheduler.hpp:838-851 | performs the suspend transition and answers as it does |
| Scheduler.Scheduler.ResumeImpl | inc/mce/scheduler.hpp:853-862 | performs the resume transition |
| Scheduler.Scheduler.HaltImpl | inc/mce/scheduler.hpp:864-869 | the state becomes halted |
| Scheduler.Scheduler.Request | inc/mce/scheduler.hpp:838-869 | applies one lifecycle request |
| Scheduler.Scheduler.MeasureNow | inc/mce/scheduler.hpp:816-827 | `measure()` packs the queue length and the scheduled count |
| Scheduler.Scheduler.Schedule | inc/mce/scheduler.hpp:1027-1056 | a no-op once halted; otherwise appends every non-null coroutine in order and counts each one |
| Scheduler.Scheduler.ExecuteStep | inc/mce/scheduler.hpp:546-585 | pops the front task: a parked task leaves with the count unchanged, a completed one decrements it, any other is re-appended at the back |
| Scheduler.Scheduler.Unpark | inc/mce/scheduler.hpp:352-357 | a parked coroutine returns to the back of the queue, without a second count |
| Scheduler.Scheduler.Run | inc/mce/scheduler.hpp:505-691 | answers pending after a suspension and finished after a halt, clearing the queue; a halted scheduler stays halted; the count stays exact |
| Threadpool.WorkerCount | inc/mce/threadpool.hpp:237-253 | a request of 0 becomes the hardware concurrency, a concurrency of 0 becomes 1, so a pool is never empty |
| Threadpool.AdvanceIsModular | inc/mce/threadpool.hpp:273-290 | advancing the cursor adds one modulo the worker count |
| Threadpool.CursorRoundRobin | inc/mce/threadpool.hpp:273-290 | after k calls the cursor is k modulo the worker count, so calls visit 0, 1, …, n-1, 0, … |
| Threadpool.LeastLoadedUnique | inc/mce/threadpool.hpp:65-114 | the chosen worker is determined by the weights and the start index |
| Threadpool.FirstHalted | inc/mce/threadpool.hpp:154-166 | the index of the first halted worker lies within the pool |
| Threadpool.FirstHaltedSpec | inc/mce/threadpool.hpp:154-166 | every worker before that index is not halted, and the one at it is |
| Threadpool.WrappedPass | inc/mce/threadpool.hpp:104-111 | the wrapped second pass over 0..start-1 completes a least-loaded choice |
| Threadpool.Threadpool.constructor | inc/mce/threadpool.hpp:237-253 | the pool has the worker count above, all workers running, and the cursor at 0 |
| Threadpool.Threadpool.CurrentSchedulerIdx | inc/mce/threadpool.hpp:273-290 | returns the cursor and advances it modulo the worker count |
| Threadpool.Threadpool.Worker | inc/mce/threadpool.hpp:65-114 | returns a worker of minimal weight: the first empty one in scan order from start+1 with wrap-around, otherwise the earliest of strictly least weight |
| Threadpool.Threadpool.Compare | inc/mce/threadpool.hpp:77-101 | one scan pass over a range stops at the first empty worker; otherwise it keeps the earliest worker strictly lighter than the running least, and every worker passed over is non-empty and no lighter |
| Threadpool.Threadpool.GetState | inc/mce/threadpool.hpp:143-151 | reports the first worker's state |
| Threadpool.Threadpool.SuspendImpl | inc/mce/threadpool.hpp:154-166 | answers true iff no worker is halted; workers up to the first halted one are suspended and later ones are not asked |
| Threadpool.Threadpool.ResumeImpl | inc/mce/threadpool.hpp:169-177 | resumes every worker |
| Timer.Ticks | inc/mce/timer.hpp:44-69 | every time unit is a positive number of nanosecond ticks |
| Timer.DurationInTicks | inc/mce/timer.hpp:44-69 | n units are n times the unit's ticks, and the nanosecond unit falls to the default and gives zero |
| Timer.DifferenceSymmetric | inc/mce/timer.hpp:72-100 | the difference of two time points is symmetric |
| Timer.DifferenceTruncates | inc/mce/timer.hpp:72-100 | the difference is the absolute distance truncated to whole units |
| Timer.DifferenceOfDuration | inc/mce/timer.hpp:44-100 | a time point and the same point plus n units differ by exactly n units |
| Timer.TimeoutIsNowPlusDuration | inc/mce/timer.hpp:235-261 | `timer(unit, count)` times out at now plus count units, and at now for nanoseconds |
| Timer.Ids | inc/mce/timer.hpp:281-300 | the ids of a queue, entry by entry |
| Timer.InsertPos | src/timer.cpp:14-15 | the insertion point lies within the queue |
| Timer.InsertAfterShape | src/timer.cpp:14-15 | inserting places the new entry after every entry not later than it |
| Timer.InsertPosBounds | src/timer.cpp:14-15 | entries before the insertion point are not later than the new timeout and, in a sorted queue, entries after it are later |
| Timer.InsertAfterSpec | src/timer.cpp:14-15 | inserting into a sorted queue splices the entry in after every equal timeout and keeps the queue sorted |
| Timer.InsertAfterPermutes | src/timer.cpp:14-15 | insertion adds exactly the new entry |
| Timer.StableSortKeepsSorted | src/timer.cpp:15 | sorting an already sorted queue changes nothing (stability) |
| Timer.InsertPosAtEnd | src/timer.cpp:14-15 | a timeout not earlier than every entry goes at the back |
| Timer.StableSortSpec | src/timer.cpp:15 | `std::list::sort` yields a sorted permutation |
| Timer.PushThenSort | src/timer.cpp:14-15 | push_back then sort on a sorted queue is the stable splice: earlier-or-equal entries before the new one, later entries after |
| Timer.ExpiredCount | inc/mce/timer.hpp:383-439 | the sweep's stop index: every entry before it is due and the entry at it, if any, is not |
| Timer.ExpiredArePrefix | inc/mce/timer.hpp:383-439 | in a sorted queue the due entries are exactly a prefix |
| Timer.RestPending | inc/mce/timer.hpp:420-427 | after the sweep every remaining entry is later than now |
| Timer.SpliceSorted | src/timer.cpp:14-15 | splicing at the insertion point keeps the queue sorted |
| Timer.CreateKeepsInvariant | src/timer.cpp:5-28 | creating a timer keeps the queue sorted, its ids distinct and valid, and the new id fresh |
| Timer.EraseKeepsInvariant | inc/mce/timer.hpp:296-308 | removing an entry and clearing its flag keeps the invariant |
| Timer.UnqueuedFlagKeepsInvariant | inc/mce/timer.hpp:296-308 | clearing the flag of an id that is not queued keeps the invariant |
| Timer.SweepKeepsInvariant | inc/mce/timer.hpp:383-439 | firing a prefix and clearing its flags keeps the invariant |
| Timer.PopKeepsInvariant | inc/mce/timer.hpp:389-403 | firing the front entry keeps the invariant |
| Timer.ClearFlagsSnoc | inc/mce/timer.hpp:392-393 | firing one more entry clears one more flag |
| Timer.ClearFlagsSpec | inc/mce/timer.hpp:392-393 | after a sweep an id's flag is true iff it was true and the id was not fired |
| Timer.TimerService.constructor | inc/mce/timer.hpp:150-156 | a service starts with no timers and both flags down |
| Timer.TimerService.CreateTimer | src/timer.cpp:5-28 | the new id is fresh and valid, the queue is the stable sort of the old queue plus the new entry, it grows by one, `new_timers_` is raised and `waiting_for_timeouts_` lowered |
| Timer.TimerService.TimerIn | inc/mce/timer.hpp:235-261 | creates a timer timing out at now plus the duration |
| Timer.TimerService.Running | inc/mce/timer.hpp:265-269 | true iff the id is still valid or is the timer now executing |
| Timer.TimerService.Remove | inc/mce/timer.hpp:281-313 | a valid, queued, non-executing id is erased with its flag cleared and the answer is true; an invalid id changes nothing and answers false |
| Timer.TimerService.Find | inc/mce/timer.hpp:296-306 | the search of `remove` stops at the first entry with the id, or at the end when no entry has it |
| Timer.TimerService.Clear | inc/mce/timer.hpp:322-326 | empties the queue and leaves every flag alone |
| Timer.TimerService.Count | inc/mce/timer.hpp:329-333 | the queue length |
| Timer.TimerService.FireFront | inc/mce/timer.hpp:389-403 | fires the front entry: it leaves the queue and its flag is cleared |
| Timer.TimerService.FireExpired | inc/mce/timer.hpp:383-439 | fires exactly the due prefix in queue order, clearing exactly those flags |
| Timer.TimerService.CheckTimers | inc/mce/timer.hpp:376-466 | one pass fires the due prefix, leaves only later timers, wakes at the front timeout if any, and keeps the invariant |
| BaseChannel.ResultAsBoolExactly | inc/mce/base_channel.hpp:22-28 | a result converts to true iff it is not `closed` |
| BaseChannel.SucceededStrongerThanBool | inc/mce/base_channel.hpp:22-28 | success converts to true, and failure converts to true without being a success |
| BaseChannel.NoticeResult | inc/mce/buffered_channel.hpp:139-155 | a resolved parked call returns success or closed, and closed iff it was closed out |
| BaseChannel.ClosedNotices | inc/mce/buffered_channel.hpp:139-155 | closing resolves one notice per parked call |
| BaseChannel.ClosedNoticesSpec | inc/mce/buffered_channel.hpp:139-155 | the i-th notice closes out the i-th parked call |
| BaseChannel.Values | inc/mce/buffered_channel.hpp:315-324 | the values of the parked senders, in queue order |
| BaseChannel.SendTickets | inc/mce/buffered_channel.hpp:139-155 | one ticket per parked sender |
| BaseChannel.ClosedSendersStep | inc/mce/buffered_channel.hpp:139-155 | closing out the front sender first and then the rest gives the same notices |
| BaseChannel.ValuesUntilFailure | inc/mce/base_channel.hpp:133-137 | the values received in order up to, and excluding, the first failed receive |
| BaseChannel.Receiver.constructor | inc/mce/base_channel.hpp:210-216 | a receiver answers from a script of receive outcomes |
| BaseChannel.Receiver.Recv | inc/mce/base_channel.hpp:135 | a receive consumes the next outcome, and fails once the script is exhausted |
| BaseChannel.IteratorContext.constructor | inc/mce/base_channel.hpp:210-213 | a new context is good and holds no value |
| BaseChannel.IteratorContext.Increment | inc/mce/base_channel.hpp:133-137 | a bad context stays bad and does not receive; a failed receive makes it bad; a successful one caches the value |
| BaseChannel.ChanIterator.End | inc/mce/base_channel.hpp:219 | `end()` is the null-context iterator |
| BaseChannel.ChanIterator.Equals | inc/mce/base_channel.hpp:174-177 | iterators are equal iff their contexts are the same |
| BaseChannel.ChanIterator.Next | inc/mce/base_channel.hpp:195-206 | advancing receives one value, or resets the context so the iterator equals `end()` |
| BaseChannel.Begin | inc/mce/base_channel.hpp:210-216 | `begin()` makes a fresh context and performs one receive at once, giving `end()` when it fails |
| BaseChannel.ForEach | inc/mce/base_channel.hpp:133-216 | iterating from `begin()` to `end()` yields exactly the values received before the first failure |
| BaseChannel.LvalueLessEqIsStrict | inc/mce/base_channel.hpp:301-304 | as written, lvalue `a <= a` and `a >= a` are false; the corrected operators are true |
| BaseChannel.LessEqConsistent | inc/mce/base_channel.hpp:306-309 | corrected `<=` is `<` or equal contexts, `>=` is its converse, and `<=` both ways means equal contexts |
| BaseChannel.NoContextIsLeast | inc/mce/base_channel.hpp:247-250 | a channel without a context is below every channel, and one with a context is above the null context |
| BufferedChannel.CapacityFor | inc/mce/buffered_channel.hpp:53-60 | capacity is the requested size, and 1 when that is 0 |
| BufferedChannel.BufferedChannel.constructor | inc/mce/buffered_channel.hpp:53-58 | an open channel with the capacity above, an empty buffer and no parked calls |
| BufferedChannel.BufferedChannel.Default | inc/mce/buffered_channel.hpp:60 | `construct()` gives capacity 1 |
| BufferedChannel.BufferedChannel.Size | inc/mce/buffered_channel.hpp:164-168 | the buffer length, never above capacity |
| BufferedChannel.BufferedChannel.Empty | inc/mce/buffered_channel.hpp:170-174 | true iff the buffer is empty |
| BufferedChannel.BufferedChannel.Full | inc/mce/buffered_channel.hpp:176-181 | true iff the buffer holds capacity values |
| BufferedChannel.BufferedChannel.Capacity | inc/mce/buffered_channel.hpp:183-187 | the capacity |
| BufferedChannel.BufferedChannel.Reserve | inc/mce/buffered_channel.hpp:189-193 | the free room, zero iff full |
| BufferedChannel.BufferedChannel.IsClosed | inc/mce/buffered_channel.hpp:157-162 | the closed flag |
| BufferedChannel.BufferedChannel.Close | inc/mce/buffered_channel.hpp:139-155 | closes and resolves every parked sender and then every parked receiver, in FIFO order, as closed; the buffer is kept |
| BufferedChannel.BufferedChannel.UnparkSenders | inc/mce/buffered_channel.hpp:144-153 | closes out every parked sender in queue order |
| BufferedChannel.BufferedChannel.UnparkReceivers | inc/mce/buffered_channel.hpp:144-154 | closes out every parked receiver in queue order |
| BufferedChannel.BufferedChannel.Send | inc/mce/buffered_channel.hpp:195-255 | closed answers closed; full fails or parks; otherwise the value is sent, handed straight to the front parked receiver if any, and the pending values grow by it at the back |
| BufferedChannel.BufferedChannel.Recv | inc/mce/buffered_channel.hpp:268-324 | closed answers closed; empty fails or parks; otherwise the front pending value is returned and removed, and the front parked sender refills the buffer |
| BufferedChannel.BufferedChannel.SendBlocking | inc/mce/buffered_channel.hpp:90-99 | blocking send answers true iff the result is success, or parks |
| BufferedChannel.BufferedChannel.RecvBlocking | inc/mce/buffered_channel.hpp:102-105 | blocking recv answers true iff the result is success, or parks |
| UnbufferedChannel.UnbufferedChannel.constructor | inc/mce/unbuffered_channel.hpp:134 | an open channel with no parked calls |
| UnbufferedChannel.UnbufferedChannel.IsClosed | inc/mce/unbuffered_channel.hpp:154-158 | the closed flag |
| UnbufferedChannel.UnbufferedChannel.Close | inc/mce/unbuffered_channel.hpp:136-152 | closes and fails every parked sender and then every parked receiver in FIFO order, emptying both queues |
| UnbufferedChannel.UnbufferedChannel.UnparkSenders | inc/mce/unbuffered_channel.hpp:141-150 | closes out every parked sender in queue order |
| UnbufferedChannel.UnbufferedChannel.UnparkReceivers | inc/mce/unbuffered_channel.hpp:141-151 | closes out every parked receiver in queue order |
| UnbufferedChannel.UnbufferedChannel.Send | inc/mce/unbuffered_channel.hpp:160-209 | closed answers closed; a parked receiver takes the value and leaves the queue; otherwise a non-blocking send fails and changes nothing and a blocking one parks; at most one queue is ever non-empty |
| UnbufferedChannel.UnbufferedChannel.Recv | inc/mce/unbuffered_channel.hpp:231-279 | closed answers closed; the front parked sender's value is taken and the sender leaves; otherwise fail or park |
| ConditionVariable.Keys | inc/mce/condition_variable.hpp:274-286 | the keys of the notify queue, entry by entry |
| ConditionVariable.IndexOf | inc/mce/condition_variable.hpp:274-286 | the first position holding a key, or the length when it is absent |
| ConditionVariable.OnNotify | inc/mce/condition_variable.hpp:227-248 | a notify lowers the flag and keeps the status |
| ConditionVariable.OnTimer | inc/mce/condition_variable.hpp:129-137 | the timer lowers the flag and sets timeout only if the flag was still up |
| ConditionVariable.FlagDownIsFinal | inc/mce/condition_variable.hpp:227-248 | once the flag is down, no event changes anything or unparks again |
| ConditionVariable.WaitUntilStatusRule | inc/mce/condition_variable.hpp:103-158 | `wait_until` answers timeout iff the timer ran before any notify |
| ConditionVariable.UnparkedAtMostOnce | inc/mce/condition_variable.hpp:227-248 | the flagged unparker unparks at most once, on the first event |
| ConditionVariable.Lower | inc/mce/condition_variable.hpp:185-195 | notifying keys keeps the set of timed waits |
| ConditionVariable.NotifyLowers | inc/mce/condition_variable.hpp:227-248 | one notify is one flag-lowering step |
| ConditionVariable.LowerStep | inc/mce/condition_variable.hpp:185-195 | notifying one more timed waiter lowers one more flag |
| ConditionVariable.LowerSkip | inc/mce/condition_variable.hpp:185-195 | notifying a plain waiter touches no flag |
| ConditionVariable.DistinctErase | inc/mce/condition_variable.hpp:274-286 | erasing an entry keeps the keys distinct and removes exactly that key |
| ConditionVariable.KeysErase | inc/mce/condition_variable.hpp:274-286 | the keys after erasing are the old keys with that position removed |
| ConditionVariable.TimeoutLowers | inc/mce/condition_variable.hpp:129-137 | the timer's status write then notify equals one timer step |
| ConditionVariable.StatusOk | inc/mce/condition_variable.hpp:132-135 | writing a status keeps the queue invariant |
| ConditionVariable.RemoveOk | inc/mce/condition_variable.hpp:173-182 | notifying and erasing one entry keeps the queue invariant |
| ConditionVariable.ClearOk | inc/mce/condition_variable.hpp:185-195 | notifying and clearing the whole queue keeps the invariant |
| ConditionVariable.Erase | inc/mce/condition_variable.hpp:282 | erasing position i keeps every other entry in order |
| ConditionVariable.ConditionVariable.constructor | inc/mce/condition_variable.hpp:288-291 | no waiters, no keys issued or returned |
| ConditionVariable.ConditionVariable.BorrowKey | inc/mce/condition_variable.hpp:252-268 | reuses the oldest returned key, otherwise issues `key_source_` and increments it; the key is not in use |
| ConditionVariable.ConditionVariable.ReturnKey | inc/mce/condition_variable.hpp:270 | appends the key to the free list |
| ConditionVariable.ConditionVariable.BeginWait | inc/mce/condition_variable.hpp:39-48 | a wait borrows a fresh key and queues a plain waiter at the back |
| ConditionVariable.ConditionVariable.EndWait | inc/mce/condition_variable.hpp:49-50 | after waking, the key is returned |
| ConditionVariable.ConditionVariable.BeginWaitUntil | inc/mce/condition_variable.hpp:107-123 | a timed wait borrows a fresh key, queues a flagged waiter and raises its flag |
| ConditionVariable.ConditionVariable.EndWaitUntil | inc/mce/condition_variable.hpp:141-157 | after waking, answers the recorded status and returns the key |
| ConditionVariable.ConditionVariable.Notify | inc/mce/condition_variable.hpp:220-248 | a plain waiter is unparked; a flagged one is unparked only if its flag is still up, and its flag goes down |
| ConditionVariable.ConditionVariable.NotifyAt | inc/mce/condition_variable.hpp:173-182 | notifies and erases the waiter at one position |
| ConditionVariable.ConditionVariable.NotifyOne | inc/mce/condition_variable.hpp:173-182 | notifies and removes only the front waiter, and does nothing on an empty queue |
| ConditionVariable.ConditionVariable.NotifyAll | inc/mce/condition_variable.hpp:185-195 | notifies every waiter in queue order and empties the queue |
| ConditionVariable.ConditionVariable.NotifyWithKey | inc/mce/condition_variable.hpp:274-286 | notifies and erases only the first entry with the key; without one nothing changes |
| ConditionVariable.ConditionVariable.TimerFires | inc/mce/condition_variable.hpp:129-137 | a timer with the flag up records timeout and notifies its own entry; with the flag down it changes nothing else |
| ConditionVariable.WaitWhile | inc/mce/condition_variable.hpp:59-63 | waits exactly until the predicate first holds |
| ConditionVariable.WaitForWhile | inc/mce/condition_variable.hpp:80-96 | returns the predicate's last value, stops at the first timeout, and a false answer means a timeout |
| Mutex.Mutex.constructor | inc/mce/mutex.hpp:22 | a free mutex with nobody parked |
| Mutex.Mutex.Lock | inc/mce/mutex.hpp:26-40 | a free mutex is taken without touching the queue; a held one parks the caller at the back |
| Mutex.Mutex.Park | inc/mce/mutex.hpp:31-35 | the caller joins the back of the queue with a fresh ticket |
| Mutex.Mutex.Relock | inc/mce/mutex.hpp:31-37 | a woken locker takes the mutex if it is free and parks again otherwise |
| Mutex.Mutex.Unlock | inc/mce/mutex.hpp:43-56 | releases a held mutex and wakes and removes exactly the front waiter; an unlocked mutex answers the already-unlocked error and nothing changes |
| Mutex.Mutex.TryLock | inc/mce/mutex.hpp:59-68 | takes a free mutex and answers true; a held one answers false with no change |
| Mutex.Without | inc/mce/mutex.hpp:31-37 | removes a woken ticket and keeps every other |
| AwaitPool.MinWorkers | src/await.cpp:28-29 | the minimum is `MCEMINAWAITPROCS` when non-zero and 1 otherwise |
| AwaitPool.RunsInline | inc/mce/await.hpp:137-183 | a callable runs on a worker iff the caller is in a scheduler and not already on an await thread |
| AwaitPool.ScheduleDecision | src/await.cpp:22-26 | the per-thread await flag starts false, so a scheduler thread uses a worker, and outside a scheduler or on an await thread the call is inline |
| AwaitPool.AwaitValue | inc/mce/await.hpp:244-264 | await of a void callable returns 0, otherwise the callable's result |
| AwaitPool.AwaitThreadpool.constructor | src/await.cpp:28-37 | minimum, count and pool size start at the minimum, nothing checked out |
| AwaitPool.AwaitThreadpool.NoThreads | inc/mce/await.hpp:194 | the no-threads pool has minimum 0, count 0 and an empty pool |
| AwaitPool.AwaitThreadpool.Checkout | inc/mce/await.hpp:200-216 | pops the front pooled worker with the count unchanged, otherwise creates one and increments the count; the count stays pool plus checked out |
| AwaitPool.AwaitThreadpool.Checkin | inc/mce/await.hpp:218-230 | keeps the worker only while the pool is below the minimum, otherwise discards it and decrements the count |
| AwaitPool.AwaitThreadpool.Schedule | inc/mce/await.hpp:137-183 | inline calls leave the pool alone; otherwise one worker is checked out and back in, and the checked-out set is unchanged |
| AwaitPool.AwaitThreadpool.Await | inc/mce/await.hpp:300-309 | returns the callable's value, or 0 for void, and grows the count only when a worker had to be created and kept |
| AwaitPool.Instance | src/await.cpp:39-50 | with default threads disabled the pool is the no-threads one, otherwise the default one |

## Left out

- Process I/O in both scripts: subprocess spawning, line streaming, `argparse`, `os.listdir`, `os.chdir`, `os.environ` and `sys.exit`. Exit codes, command output and directory listings are oracle parameters, and the toolchain variable stands for CC/CXX.
- `wget`, `tar`, `mkdir`, `touch`, the bootstrap script and `b2` are one host oracle from a command and a filesystem snapshot to an exit code and a new snapshot; each command's streamed output (script/setup-boost.py:35-36) is not modelled and never reaches the trace's stdout.
- SetupBoost.ExitStatus: a command that cannot be started (`Popen` raising `FileNotFoundError` or `PermissionError`, script/setup-boost.py:33) or whose output is not valid UTF-8 ends the script with a traceback and exit status 1, with no `ERROR:` line; the host oracle always returns an exit code, so this path is not modelled.
- CiPipeline.Session.BuildAndExecuteTests: a command that cannot be started (`Popen` raising `FileNotFoundError` or `PermissionError`, script/continuous_integration.py:41) or whose output is not valid UTF-8 ends the script with a traceback and exit status 1, with no FAILED banner and no verdict; the exit-code oracle always answers, so this path is not modelled.
- CiPipeline.Session.RunExamples: the directory listing is an oracle read when the plan is built, not at the moment `os.listdir` runs.
- `inc/mce/coroutine.hpp` is not part of this model: a coroutine step is an abstract outcome (yielded, parked or completed).
- `inc/mce/atomic.hpp` (a spinlock), `inc/mce/function_utility.hpp` (type traits) and `inc/mce/chan.hpp` (type erasure) are not part of this model: they add no deterministic behaviour to state.
- Real blocking and concurrency: the thread and coroutine wait contexts of `parkable`, `condition_variable_any`, thread-local scheduler redirection, the child-scheduler yield loop in `run`, and the blocking wait in `halt_impl`. Parking is a ticket in a FIFO queue and waking is a notice.
- Scheduler.Scheduler.Run: the suspended case returns at once instead of blocking until resume; one call consumes a finite list of steps rather than running until the queue empties.
- Threadpool worker threads, `init_`, the join in `halt_impl`, `workers()` and `balance_algorithm`, which divides in floating point; `src/threadpool.cpp` is not part of this model.
- Threadpool.Threadpool.Worker: weights are a snapshot given as input; the scheduler measurements are not re-read during the scan.
- Timer service `start`, `ready` and `shutdown`, the condition-variable sleeps of `check_timers`, `sleep()`, the steady clock (a time point is an integer of nanosecond ticks) and handler effects. A handler is assumed not to create or remove timers during a sweep.
- Timer.TimerService.Remove: the branch that blocks while the target handler is executing is modelled as returning false with no change.
- Timer.TimerService.CheckTimers: models one sweep at a fixed `now`; the outer `while(continue_running_)` loop and the re-sweep after `new_timers_` are left to the caller.
- `default_timer_service` in `src/timer.cpp` and the free functions over it are not part of this model.
- `std::chrono` overflow: durations and time points are unbounded integers.
- ConditionVariable.ConditionVariable.BeginWaitUntil: the timer started through the timer service and its `remove` on wake are represented by the separate TimerFires event; `wait_for(d)` is `wait_until(now + d)` and shares this model.
- AwaitPool: the thread-local `tl_is_await` flag and `in_scheduler()` are parameters; the cross-thread execution of the callable on the worker is not modelled.
- Counter width: the scheduler's `scheduled_` and the queue sizes are unbounded in the tally and truncated to a 64-bit word only when measured; other `size_t` counters (tickets, keys, worker counts) do not wrap.
- Tests, examples and the debug printer are not part of this model.

## Findings

| source | as written | input that shows it | evidently intended | confidence | as-written member | corrected member |
|---|---|---|---|---|---|---|
| inc/mce/scheduler.hpp:352-357 | a parked coroutine keeps its `scheduled_` count, and unpark reschedules it through `schedule()`, which counts it again | schedule one coroutine, let it park, unpark it, let it complete: `scheduled_` ends at 1 with nothing live | `scheduled_` counts the live coroutines, so unpark does not add a second count | not executed | Scheduler.UnparkAsWrittenOvercounts | Scheduler.CountedPreserved |
| inc/mce/base_channel.hpp:301-304 | the lvalue `operator<=` compares with `<` (and `operator>=` at lines 321-324 with `>`) | any channel `a`: `a <= a` is false | `<=` and `>=` are the non-strict comparisons, as the rvalue overloads are | not executed | BaseChannel.LvalueLessEqIsStrict | BaseChannel.LessEqConsistent |
