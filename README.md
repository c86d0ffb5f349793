# go-composition-runner: the default runner, modelled in Dafny

The runner registers named runnables and optional shutdown handlers. `Start`
runs every runnable concurrently. The first runnable to return, with or without
an error, or a cancellation by the caller, begins the shutdown. The runner then
cancels the others, calls the shutdown handlers, and waits for all runnables
to return under a deadline. It publishes exactly one value on its result
channel, then closes that channel.

This project models the sequential decision logic of `defaultRunner`
(runner_default.go):

- `wrappers.dfy` (`Wrappers`): `Option`, standing for Go's nil-or-error.
- `errors.dfy` (`Errors`): the package sentinels (types.go) and Go's error
  values. `Message` is `Error()`, `Unwrap` is `errors.Unwrap`, `Is` is
  `errors.Is`. There is one constructor per `fmt.Errorf` call site of the
  runner, whose contract gives the exact text and the unwrap chain.
- `trigger.dfy` (`Trigger`): the check-and-set race on `isAnyDone`/`anyDone`.
  The reports the goroutines make under `runLock` are a sequence in lock
  order; `Replay` gives the slot they leave behind.
- `shutdown.dfy` (`Shutdown`): the select between the first completion and
  the caller's cancellation, the deadline join, and `finishWithTimeout`'s
  rewriting of the error. Timing is an explicit `Schedule`: the completions in
  lock order, whether the caller cancels, which ready select case wins, and
  whether the join beats the deadline. A runnable missing from the completions
  never returns.
- `channel.dfy` (`ResultChannel`): `r.done`, a `chan error` with a buffer of
  one. A send on a closed channel is recorded as a panic.
- `runner_default.dfy` (`DefaultRunner`): the `Runner` class. Its fields are
  the two maps, `started`, and the one `done` channel. `Start` covers
  everything up to returning the channel: the preflight, or launching the
  runs. `Supervise` covers the rest of the supervisor goroutine.
- `scenarios.dfy` (`Scenarios`): the cases of runner_test.go and the second
  `Start`, written as clients of the class.

Behaviour of the code a reader might not expect:

- The interface's doc comment (types.go:26-31) says the returned channel
  receives nil or the first problematic handler's error. A second `Start` does
  not get a channel of its own for its `ErrAlreadyStarted`, though. It writes
  that error to the same `r.done` channel the first run uses, and that ends in
  a panic (see Findings).
- The terminal error names both the runnable and the runner. It is
  "runnable '<n>' failed during operation in runner[<r>]: <cause>" or
  "runnable '<n>' finished operation without any cause in runner[<r>]", the
  texts runner_test.go checks.
- When the deadline wins after a task error, the timeout marker is appended
  with `%s`, not `%w`. So `errors.Is(result, ErrShutdownTimeout)` is false in
  that case, unless the task error itself wraps that sentinel
  (`Shutdown.Decorate`).
- When a clean stop misses the deadline, the sentinel text appears twice:
  "... finished with an error: shutdown deadline reached [shutdown deadline
  reached]" (`Shutdown.CancelledTimeoutMessage`).
- `RegisterRunnableHandler` on a started runner uses the shutdown-handler
  wording "failed to register shutdown handler for runnable '<n>'", as
  runner_default.go:39 does.

## Model

| member | source | states |
|---|---|---|
| `Errors.RegisterRunnableFailure` | runner_default.go:42 | the duplicate-runnable error matches errors.Is for exactly ErrRunnableAlreadyDefined, and its text is "failed to register runnable '<n>': <sentinel text>" |
| `Errors.RegisterShutdownFailure` | runner_default.go:48-57 | the shutdown-registration error (also used at line 39) matches errors.Is for exactly its sentinel and has the source's text |
| `Errors.StartFailure` | runner_default.go:77-86 | the preflight error matches errors.Is for exactly ErrAlreadyStarted or ErrNoRunnables, and its text is "runner[<r>] start cannot be completed: <sentinel text>" |
| `Errors.RunnableFailed` | runner_default.go:127 | a failure report unwraps to the runnable's own error, answers errors.Is as that error does, and has the exact text runner_test.go:140 expects |
| `Errors.RunnableStopped` | runner_default.go:156 | a nil return becomes a plain error that wraps no sentinel, with the exact text runner_test.go:109 expects |
| `Errors.ShutdownFailed` | runner_default.go:204 | the fresh timeout error of a clean stop matches errors.Is for ErrShutdownTimeout only |
| `Errors.WithDeadlineMarker` | runner_default.go:207 | the deadline marker " [shutdown deadline reached]" ends the text, and the chain is the original error's, so the marker adds no sentinel |
| `Trigger.ReplayAfterSet` | runner_default.go:108-116 | once `isAnyDone` is up, no later report, failing or nil, changes the slot |
| `Trigger.SlotWrittenOnce` | runner_default.go:105-133 | `isAnyDone` goes from false to true at most once, and the slot never changes after it is set |
| `Trigger.FirstReportWins` | runner_default.go:105-133 | the flag is up exactly when some report ran, and the slot holds the first report in lock order |
| `Trigger.ReplayReports` | runner_default.go:105-133 | step lemma of the `AwaitCompletions` loop: one runnable's error report (if any) runs before its own deferred nil report, each as a check-and-set |
| `Trigger.TriggerIsFirstCompletion` | runner_default.go:105-133 | the trigger is the first runnable to return, with its wrapped error if it failed and nil if it returned nil |
| `Trigger.FailureNotOverwritten` | runner_default.go:122-131 | a failing runnable's wrapped error survives its own deferred nil report and every later report |
| `Shutdown.Decorate` | runner_default.go:196-209 | without a deadline race, or when the join wins, the error is unchanged. When the deadline wins, the result is non-nil and ends with the marker. A non-nil error's text becomes its own text followed by the marker, and the result unwraps to it; nil becomes a fresh timeout error with the marker. errors.Is finds ErrShutdownTimeout only when the input was nil or already a timeout |
| `Shutdown.PublishesIff` | runner_default.go:147-173 | a run publishes exactly when some runnable returns or the caller cancels; otherwise the supervisor blocks at the select |
| `Shutdown.TriggerPathError` | runner_default.go:152-157 | when the anyDone case runs, the error is never nil. Its text is the first runnable's "failed during operation" message (unwrapping to its cause) or its "finished operation without any cause" message |
| `Shutdown.CancelPathIsNil` | runner_default.go:163-172 | when the caller's cancellation case runs, the error before decoration is nil |
| `Shutdown.CleanStopIff` | runner_default.go:163-172 | the run publishes nil exactly when the cancellation case runs and every runnable returns before the deadline |
| `Shutdown.UnreturnedRunnableTimesOut` | runner_default.go:200-208 | if a runnable never returns, whatever the run publishes is an error that ends with the deadline marker |
| `Shutdown.TimelyJoinKeepsResult` | runner_default.go:200-201 | a join that beats the deadline publishes the select's result unchanged |
| `Shutdown.CancelledTimeoutMessage` | runner_default.go:203-208 | a clean stop that misses the deadline publishes "runner[<r>] shutdown procedure finished with an error: shutdown deadline reached [shutdown deadline reached]" |
| `ResultChannel.ErrorChannel.constructor` | runner_default.go:32 | the result channel starts open and empty |
| `ResultChannel.ErrorChannel.SendThenClose` | runner_default.go:191-194 | the first send-and-close buffers its value and closes the channel; a later one changes nothing but panics |
| `ResultChannel.ErrorChannel.Receive` | types.go:26-32 | a receive takes the one buffered value; after that a closed channel yields no more values |
| `DefaultRunner.Runner.constructor` | runner_default.go:26-35 | a new runner has empty maps, is not started, and owns a fresh, open, empty result channel |
| `DefaultRunner.Runner.RegisterRunnableHandler` | runner_default.go:37-46 | checks `started` first (ErrAlreadyStarted), then a duplicate name (ErrRunnableAlreadyDefined, the original function is kept). Success adds exactly that key. The shutdown map never changes, and keys(shutdowns) stays a subset of keys(runnables) |
| `DefaultRunner.Runner.RegisterRunnableShutdown` | runner_default.go:48-60 | checks, in order, `started`, a name missing from the runnables (ErrRunnableNotFound) and a duplicate handler (ErrShutdownAlreadyDefined). Success adds only that key, and the subset invariant holds |
| `DefaultRunner.Runner.Start` | runner_default.go:62-89 | always leaves `started` true and returns the runner's one channel. The already-started check comes before the empty-registry check. Preflight failures are published undecorated; otherwise the runs are launched |
| `DefaultRunner.Runner.Supervise` | runner_default.go:91-173 | publishes exactly the value `RunOutcome` gives for the schedule, after cancel() and one call to each registered shutdown handler, or blocks with nothing published |
| `DefaultRunner.Runner.AwaitCompletions` | runner_default.go:93-135 | the loop over the runnables' reports ends with the slot `Replay` gives for those reports in lock order |
| `DefaultRunner.Runner.TriggerShutdownHandlers` | runner_default.go:181-188 | every registered shutdown handler is called exactly once, and no other handler is called |
| `DefaultRunner.Runner.FinishWithTimeout` | runner_default.go:190-210 | publishes the error as `Decorate` rewrites it, then closes the channel |
| `DefaultRunner.Runner.StartIsolated` | runner_default.go:73-79 | corrected second Start: the AlreadyStarted failure goes to a fresh channel, and the first run's channel is left alone |
| `Scenarios.CancelledContextStopsCleanly` | runner_test.go:16-80 | three runnables stopped by the caller's cancellation publish nil, and the one shutdown handler is called once, after cancel() |
| `Scenarios.NilReturnStopsRunner` | runner_test.go:81-111 | a runnable returning nil ends the run with its "finished operation without any cause" error |
| `Scenarios.FailureStopsRunner` | runner_test.go:112-142 | a failing runnable ends the run with its wrapped, attributed error |
| `Scenarios.IgnoredCancellationTimesOut` | runner_default.go:200-208 | a runnable that never returns makes the triggering failure come back with the deadline marker |
| `Scenarios.SecondStartAfterRunPanics` | runner_default.go:190-194 | a second Start after the run has published sends on the closed channel and panics, and the first result stays in the buffer |
| `Scenarios.SecondStartDuringRunHijacks` | runner_default.go:73-77 | a second Start during a run hands the first caller ErrAlreadyStarted on its own channel, and the first run's publication then panics |
| `Scenarios.SecondStartIsolated` | runner_default.go:73-79 | with StartIsolated, both callers get their own results and nothing panics |

## Findings

| source | as written | input that shows it | evidently intended | confidence | as-written member | corrected member |
|---|---|---|---|---|---|---|
| runner_default.go:73-77 | a second `Start` publishes ErrAlreadyStarted through `finishWithTimeout` onto `r.done`. That is the channel the first `Start` returned, created once at line 32, and the first run's publication also sends on it and closes it | register one runnable, call `Start`, then call `Start` again (before or after the first run publishes) | the second call reports ErrAlreadyStarted on a channel of its own, and the first run's result is not disturbed | high, not executed | `Scenarios.SecondStartDuringRunHijacks` | `DefaultRunner.Runner.StartIsolated` |

`Scenarios.SecondStartAfterRunPanics` shows the other order: the second send
finds the channel closed, and Go panics. `Scenarios.SecondStartIsolated`
proves the corrected behaviour.

## Left out

- Goroutines, `sync.WaitGroup`, `sync.Mutex`, `context` and `time` (runner_default.go:67-176) are not modelled. They are replaced by the explicit `Schedule`, which also covers Go's random choice between ready `select` cases.
- `Runner.shutdownTimeout` is kept but never read. Whether the deadline wins is part of the schedule.
- The `ready` handshake is not modelled, and neither is the unsynchronised read of `started` in the goroutine (line 73) against the deferred write (line 64). `Start` is one atomic step.
- The launch loop (lines 98-135) is not a loop of its own. `WellFormed` lets each registered name complete at most once, and `AwaitCompletions` walks the completions.
- Go map iteration order (lines 98, 182) is not modelled. Shutdown calls are a multiset.
- The context passed to shutdown handlers is not modelled.
- The bodies of `RunnableFunc` and `ShutdownFunc` are not modelled. They are the handles `RunnableFunc(id)` and `ShutdownFunc(id)`, and shutdown handler outcomes are not observed.
- A user's error can be any `Errors.Error`: an opaque leaf, a package sentinel, or a chain of single `%w` wraps. Two kinds of error are not modelled: user error types with their own `Is` or `Unwrap` methods, and errors that wrap several targets (`errors.Join`, several `%w` in one format).
- The debug printer (debug.go, every `debugPrinterFunc` call) is not modelled. It does not affect control flow.
- Option resolution in runner.go and options.go (`New`) is not modelled. Only its defaults, 10 seconds and the name "default", are kept as constants.
- `ResultChannel.ErrorChannel.SendThenClose`: the deferred send and close is one step. The moment between them is not modelled; a sender arriving then would panic as well.
- `ResultChannel.ErrorChannel.Receive`: a receive on an open, empty channel returns `WouldBlock` instead of waiting.
- After a panic the model records `panicked` and carries on. Go would end the process.
