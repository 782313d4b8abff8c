# tofail: the job loops, the executor wrapper and the supervisor

tofail runs a command over and over, in one or more concurrent jobs, until a
run fails, times out or cannot be started. It then reports the failing run's
captured output and tells the other jobs to stop. This project models the core
of that program in Dafny and proves properties of the model:

- **Types** (`types.dfy`): the classified result of one attempt
  (`OK`, `FAILED_EXECUTING`, `FAIL`, `TIMEOUT`) with its output file, exit
  code and timeout pid.
- **ExecWrapper** (`execwrapper.dfy`): the executor of
  `internal/execwrapper/execwrapper.go`.
  - `Command` builds a command from an argument vector.
  - `StartWithTmpfile` sends both output streams to one fresh temporary file
    and starts the process.
  - `Wait` maps the error of `exec.Cmd.Wait` to an exit code and an I/O error.
- **Runner** (`runner.dfy`): the live job loop of
  `internal/runner/runner.go`.
  - It checks for a stop request, builds the command, arms a timer when a
    timeout is configured, starts the process and waits for either the timer
    or the completion.
  - It sends one result per attempt and repeats only after an `OK` result.
  - After the loop it sends one value on the done channel.
- **LegacyRunner** (`legacy_runner.dfy`): the older job loop of `runner.go`,
  repeated verbatim in `main.go` (the copy `main` starts).
  - It creates the temporary file itself.
  - It classifies by the Go type of the wait error: nil is `OK`, an
    `*exec.ExitError` is `FAIL` (the file is rewound for reading), and
    anything else is `FAILED_EXECUTING`.
- **Supervisor** (`supervisor.dfy`): the event loop of `main.go`.
  - It counts finished jobs and numbered failures.
  - It keeps the one-shot `quitAll` latch, which sends one stop message to
    every job.
  - It removes the output file of every result it receives, except a
    `TIMEOUT`.
  - It leaves as soon as the last job reports done, so a result still
    waiting in the results channel is never handled.
  - It writes its reports, here as a list of line values.

Concurrency is replaced by its observable choices. Each job loop is driven by
a list of environment inputs: a stop or quit request arriving, or the loop
reaching the top of an iteration. An iteration carries what the collaborators
did:

- what the start returned;
- whether the timer fired before the completion arrived;
- the completion itself.

The supervisor is driven by the list of events its `select` received, in
order.

Each loop is specified three times:

- a pure step function on a state datatype;
- the loop function built from that step;
- a class whose methods update the same fields in place.

Each method's postcondition ties its new state to the step or loop function.
The lemmas state the properties of those functions.

## Model

| member | source | states |
|---|---|---|
| ExecWrapper.Wait | internal/execwrapper/execwrapper.go:62-70 | An `*exec.ExitError` yields its exit code and no I/O error. Any other non-nil error yields exit code -1 and that error. A nil error falls into the switch's default branch and yields -1 with no I/O error. So no real wait result is ever a clean exit. |
| ExecWrapper.WaitCorrected | internal/execwrapper/execwrapper.go:62-70 | The evidently intended mapping. It agrees with `Wait` on every non-nil error. For any error a real wait can return, it reports a clean exit exactly when the error is nil. |
| ExecWrapper.CleanExitLost | internal/execwrapper/execwrapper.go:64-68 | A nil wait error through `Wait` is (-1, no error), which is not a clean exit. Through `WaitCorrected` it is a clean exit. |
| ExecWrapper.ExecCommand.Command | internal/execwrapper/execwrapper.go:42-45 | The first element of the vector is the program and the rest are its arguments, so program followed by arguments is the vector. The vector must be non-empty. No redirection is set. |
| ExecWrapper.ExecCommand.StartWithTmpfile | internal/execwrapper/execwrapper.go:47-60 | If the temporary file cannot be created, the program ends (no result). Otherwise stdout and stderr both go to the new file. A start failure returns the error, pid 0 and the file. A successful start returns no error, the pid and the file. |
| Runner.AttemptResult | internal/runner/runner.go:103-125 | `FAILED_EXECUTING` exactly on a start error. `TIMEOUT` exactly when the start succeeded, a timer was armed and it fired first; it carries the pid. `OK` exactly when the start succeeded, the timer did not win, and the exit code is 0 with no I/O error. `FAIL` otherwise, carrying the completion's exit code. Every result carries the start's output file. |
| Runner.Attempt | internal/runner/runner.go:86-125 | One attempt after the stop check. It sends exactly the result `AttemptResult` gives and makes one `Command` call with the unchanged command. It receives a completion exactly when the start succeeded. The loop goes on exactly when the result is `OK`. |
| Runner.Step | internal/runner/runner.go:80-126 | A stop request only sets the pending flag. With a stop pending, no command is built and nothing is sent. A step appends at most one result and keeps the earlier ones. It never sends done. |
| Runner.Loop | internal/runner/runner.go:79-126 | The loop only appends results, at most one per iteration. It never sends on the done channel. Once left, it stays left. |
| Runner.Execution | internal/runner/runner.go:78-128 | Done is sent exactly once, after the loop has been left, and never while it runs. The earlier results are kept. |
| Runner.LoopConsistent | internal/runner/runner.go:78-126 | Every state the loop reaches from a consistent state is consistent. Only the last result may be non-OK, and a running loop has sent only `OK`. Each attempt makes one `Command` call with the unchanged command. A timer of timeoutSec seconds is armed per attempt exactly when timeoutSec > 0. A completion is received for every attempt that started. No `TIMEOUT` occurs without a timer. |
| Runner.ExecutionShape | internal/runner/runner.go:78-128 | A whole run from `startRunner`. Every result but the last is `OK`, so at most one is not. Done is sent exactly once, after the loop is left, and never while it runs. Commands and timers are as in `LoopConsistent`. |
| Runner.StopPendingEndsLoop | internal/runner/runner.go:80-85 | A pending stop request ends the loop at the next iteration's check, with no command, no timer and no result. |
| Runner.StopDuringAttempt | internal/runner/runner.go:80-126 | A stop that arrives while an attempt is in flight does not cut the attempt short: its result is still sent. No further attempt is made. |
| Runner.CleanExitEndsJob | internal/runner/runner.go:114-124 | When a process that exits normally is seen through `Wait` as written, the live loop sends `FAIL` with exit code -1 and stops. |
| Runner.RealExecutorRunsOnce | internal/runner/runner.go:114-124 | With completions produced by `Wait` as written, a job sends at most one result and never `OK`. |
| Runner.CorrectedCleanExitsRepeat | internal/runner/runner.go:114-118 | With the corrected `Wait`, a command that always exits cleanly gets one `OK` per iteration. Earlier results are kept and the job keeps running. |
| Runner.RunnerJob.Start | internal/runner/runner.go:28-46 | The job keeps the testee's command and timeout. It starts with an empty stop channel and nothing sent. |
| Runner.RunnerJob.Stop | internal/runner/runner.go:130-133 | Leaves a stop request and changes nothing else. |
| Runner.RunnerJob.RunAttempt | internal/runner/runner.go:86-125 | The in-place attempt, inside the running loop, proved equal to `Attempt`. |
| Runner.RunnerJob.Run | internal/runner/runner.go:78-128 | The in-place loop reaches exactly the state `Execution` gives for the same inputs, so `ExecutionShape` holds of it. |
| LegacyRunner.CompletionResult | runner.go:70-82 | A nil error gives `OK`, an `*exec.ExitError` gives `FAIL` with its exit code, and any other error gives `FAILED_EXECUTING`, each exactly. The result carries the file. |
| LegacyRunner.AttemptResult | runner.go:49-82 | `TIMEOUT`, with the pid, exactly when a started process's armed timer fires first. A start error gives `FAILED_EXECUTING` with exit code 0. When a started process's completion wins, the result is exactly `CompletionResult` of its wait error: `OK` for nil, `FAIL` with the code for an `*exec.ExitError`, `FAILED_EXECUTING` otherwise. |
| LegacyRunner.Attempt | runner.go:42-82 | A failed temporary-file creation ends the program with nothing sent. Otherwise the attempt creates one sink and points stdout and stderr of its command at it. It sends exactly `AttemptResult` for that sink. It rewinds the sink exactly for `FAIL`, and goes on exactly on `OK`. |
| LegacyRunner.Step | runner.go:36-83 | A quit message only becomes pending. With a quit pending, no sink is created and nothing is sent. A step appends at most one result and keeps the earlier ones. |
| LegacyRunner.Loop | runner.go:35-84 | The loop only appends results, at most one per iteration. It never sends done. Once left, it stays left. |
| LegacyRunner.Execution | runner.go:34-86 | Done is sent once after the loop, unless a failed file creation ended the program. The earlier results are kept. |
| LegacyRunner.AttemptConsistent | runner.go:42-82 | One attempt keeps every invariant of `Consistent`, including each sink's rewind. |
| LegacyRunner.LoopConsistent | runner.go:34-84 | Every reachable state is consistent. Only the last result may be non-OK. Each attempt has one sink, which its result carries and which both output streams of its command go to. Each attempt uses the unchanged command. Timers are armed per attempt exactly when timeoutSec > 0. The file is rewound exactly when the last result is `FAIL`. Every attempt's completion is received. The loop never sends done. |
| LegacyRunner.ExecutionShape | main.go:142-194 | A whole run of the copy `main` starts. At most one non-OK result, and only the last. Done is sent once after the loop, unless a failed file creation ended the program. One sink per attempt, with stdout and stderr sent to it, and one command per attempt. At most one rewind, exactly for a final `FAIL`. |
| LegacyRunner.FreshFilesDistinctSinks | runner.go:42-48 | When every file `ioutil.TempFile` creates is new, each attempt owns its sink: the sinks are pairwise distinct. |
| LegacyRunner.QuitPendingEndsLoop | runner.go:36-41 | A pending quit message ends the loop at the next check, before a file is created or a command is built. |
| LegacyRunner.ClassifiersContrast | runner.go:70-82 | Through `Wait` as written, the live loop classifies every completion as `FAIL`. The two loops agree only on an `*exec.ExitError`. |
| LegacyRunner.CorrectedClassifiersContrast | runner.go:70-82 | Through the corrected `Wait`, the two loops agree except on a wait error that is not an `*exec.ExitError`. They always agree on `OK`. |
| LegacyRunner.LegacyJob.constructor | main.go:45-49 | The job keeps the subject command and the timeout. Nothing has been sent. |
| LegacyRunner.LegacyJob.Quit | main.go:58-60 | A value on the quit channel leaves a pending quit and changes nothing else. |
| LegacyRunner.LegacyJob.RunAttempt | main.go:150-191 | One attempt updates the job exactly as `Attempt` specifies. |
| LegacyRunner.LegacyJob.AwaitCompletion | main.go:173-191 | The select on the timer and the completion sends exactly `AttemptResult`. It rewinds the sink exactly on `FAIL` and goes on exactly on `OK`. Nothing else changes. |
| LegacyRunner.LegacyJob.Run | main.go:142-194 | The in-place loop reaches exactly the state `Execution` gives for the same inputs. |
| Supervisor.QuitAllOutcome | main.go:52-63 | `quitAll` fires exactly when the latch is open. It always leaves the latch set. When already set, it changes nothing. When it fires, it sends one stop message on every quit channel and changes nothing else. |
| Supervisor.Supervisor.QuitAll | main.go:52-63 | The in-place closure, proved equal to `QuitAllOutcome`. |
| Supervisor.Supervisor.constructor | main.go:26-50 | At least one job is required. There is one empty quit channel per job, and all counters start at zero. |
| Supervisor.EventLines | main.go:70-108 | An event writes something exactly when it is an interrupt or a result that is not `OK`. |
| Supervisor.Handle | main.go:67-109 | The latch is set exactly when it was set already or the event triggers it. nFailed grows by one exactly for `FAIL`, and jobsDone by one exactly for done. The file of every received result but a `TIMEOUT` is appended to the removed files. |
| Supervisor.EventLoop | main.go:66-110 | Once every job is done, the loop does nothing. jobsDone never passes the job count. A loop that ends short of the job count has handled every event. |
| Supervisor.EventLinesShape | main.go:70-108 | Only a `FAIL` writes a failure report: one, with the new failure count as its index, its exit code at both ends, and the captured output between. "Quitting all jobs." is written exactly when a non-OK result made `quitAll` fire and there are several jobs, and only as the last line. |
| Supervisor.HandleKeepsLatched | main.go:67-109 | One event keeps the latch invariant: one stop per channel once quitting and none before, and the notice written at most once, only after quitting, never with one job. It also keeps the failure reports numbered 1..nFailed in increasing order. |
| Supervisor.QuitAllTriggers | main.go:70-108 | `OK` and done events never touch the latch. Every failure, timeout, start failure and interrupt sets it. The notice is written exactly when the latch was open, there are several jobs and the event is a non-OK result. |
| Supervisor.HandleAllFromInit | main.go:65-110 | After any events from the start, the latch invariant and the numbering hold. Quitting holds exactly when some event triggered it. nFailed counts the `FAIL` results, jobsDone counts the done events, and the removed files are those of the non-`TIMEOUT` results, in order. |
| Supervisor.DisposedFileRemoved | main.go:66-95 | The output file of every `OK`, `FAIL` or `FAILED_EXECUTING` result that the loop takes before it exits is removed. |
| Supervisor.TimeoutFileKept | main.go:66-104 | The output file of a `TIMEOUT` result is never removed by the loop, provided no other result carries the same file. |
| Supervisor.LastDoneEndsLoop | main.go:66-69 | When the last job reports done, the loop exits at once. Whatever the select would deliver next, a buffered result included, is not reported, counted or removed. |
| Supervisor.EventLoopExit | main.go:66-69 | The loop handles exactly the events up to the one after which jobsDone reaches the job count. It stops right there and never earlier, and jobsDone never passes the job count. |
| Supervisor.Supervisor.HandleEvent | main.go:67-109 | The in-place body of the `select` for one event, proved equal to `Handle`. |
| Supervisor.Supervisor.HandleRun | main.go:70-105 | The in-place switch on a received result's kind, proved equal to `Handle`. |
| Supervisor.Supervisor.ReportFailure | main.go:80-95 | The in-place `FAIL` branch, proved equal to `Handle`. |
| Supervisor.Supervisor.Loop | main.go:66-110 | The in-place event loop reaches the state `EventLoop` gives. It takes exactly `Consumed` events, so `EventLoopExit` holds of it. |
| Types.OnlyLastMayFailCount | internal/runner/runner.go:104-124 | When only the last result may be non-OK, at most one result is non-OK. Exactly one is non-OK when the last one is. |

## Left out

- Goroutines, channels and `select`: a run is one interleaving, given as the order of the inputs or events. Channel capacities, blocking and fairness are not modelled.
- Finite runs: a run is a finite list of inputs, so an unbounded stream of `OK` attempts is seen only up to the end of the list.
- The older loop, when an armed timer fires first after a start failure: the loop then blocks forever on a pid that is never sent (`runner.go:66-68`). The model classifies every start failure as `FAILED_EXECUTING` whichever came first.
- `Stop` called twice in the live runner: the second send on the closed channel panics. The model treats every stop request as the same pending flag.
- The `close(c)` after each send in `quitAll`: a receive on a closed channel behaves like a pending value, and the model records that value.
- File system and terminal I/O are identities or line values:
  - the output redirection of the live loop's commands, which the injected executor performs (`StartWithTmpfile` models it for the real executor);
  - temporary file creation and `os.Remove`;
  - `Seek`, `io.ReadAll` and the printed output;
  - `log.Fatal` (an aborted job, or no result from `StartWithTmpfile`);
  - `printOutput` failing to read (`main.go:113-119`).
- The warning logged on an I/O error (`internal/runner/runner.go:119-121`): it is a log line only and changes no result.
- Flag parsing, `signal.Notify`, `fmt.Println` of the banner and `StartJob` wiring in the real executor and timer factory (`main.go:17-50`, `internal/runner/runner.go:19-26`): configuration only. The `-j >= 1` and non-empty command checks are modelled as preconditions.
- `internal/timeout/timeout.go` and the root `execwrapper.go` are not part of this model. The timer is an input that fires first or not.
- Go's fixed-width `int` and `time.Duration` overflow of `timeoutSec * time.Second`: integers here are unbounded.

## Findings

| source | as written | input that shows it | evidently intended | confidence | as-written member | corrected member |
|---|---|---|---|---|---|---|
| internal/execwrapper/execwrapper.go:64-68 | A type switch on a nil `error` takes the `default` branch, so `Wait` returns exit code -1 for a clean exit, and the live loop at internal/runner/runner.go:115 classifies that as `FAIL` | a command that exits with status 0: `Wait(Nil)` is (-1, no error), and the first attempt sends `FAIL` with exit code -1 | a nil wait error is exit code 0 with no I/O error, and the job repeats until a real failure | not executed | ExecWrapper.Wait, Runner.CleanExitEndsJob, Runner.RealExecutorRunsOnce | ExecWrapper.WaitCorrected, Runner.CorrectedCleanExitsRepeat |
