/** The outcome of a run: the select between the first completion and the
    caller's cancellation (runner_default.go:147-173) and the deadline join
    of finishWithTimeout (runner_default.go:190-209).

    Goroutine timing is replaced by an explicit `Schedule`. */
module Shutdown {
  import opened Wrappers
  import opened Errors
  import opened Trigger

  /** What finishWithTimeout waits on: nothing (`done == nil`, the preflight
      failures), or the join of all runnables racing the shutdown deadline. */
  datatype JoinOutcome = NoJoin | JoinFirst | DeadlineFirst

  /** The timing of one run.
      - completions: every runnable that ever returns, in the order its
        reports take `runLock`; a runnable absent from it never returns;
      - ctxCancelled: the caller's context is cancelled at some point;
      - cancelWins: when both select cases can proceed, the context case is
        chosen (this also covers Go's random choice between ready cases);
      - joinFirst: when every runnable returns, the join beats the deadline. */
  datatype Schedule = Schedule(completions: seq<Completion>, ctxCancelled: bool, cancelWins: bool, joinFirst: bool)

  /** The names of the runnables that return. */
  function Returned(cs: seq<Completion>): set<string>
  {
    if cs == [] then {} else {cs[0].name} + Returned(cs[1..])
  }

  /** One goroutine per launched name, and each returns at most once. */
  predicate WellFormed(s: Schedule, launched: set<string>)
  {
    && Returned(s.completions) <= launched
    && forall i, j :: 0 <= i < j < |s.completions| ==> s.completions[i].name != s.completions[j].name
  }

  /** The join can only finish when every launched runnable has returned. */
  function JoinOf(launched: set<string>, s: Schedule): JoinOutcome
  {
    if Returned(s.completions) == launched && s.joinFirst then JoinFirst else DeadlineFirst
  }

  /** finishWithTimeout's rewriting of the error it publishes. */
  function Decorate(runner: string, join: JoinOutcome, err: Option<Error>): (r: Option<Error>)
    ensures join != DeadlineFirst ==> r == err
    ensures join == DeadlineFirst ==> r.Some? && EndsWith(Message(r.value), DeadlineMarker)
    ensures join == DeadlineFirst && err.Some? ==> Unwrap(r.value) == err
    ensures join == DeadlineFirst && err.Some? ==> Message(r.value) == Message(err.value) + DeadlineMarker
    ensures join == DeadlineFirst && err.None? ==> Unwrap(r.value) == Some(ShutdownFailed(runner))
    ensures join == DeadlineFirst ==>
              (Is(r.value, ErrShutdownTimeout) <==> err.None? || Is(err.value, ErrShutdownTimeout))
  {
    if join != DeadlineFirst then err
    else Some(WithDeadlineMarker(if err.None? then ShutdownFailed(runner) else err.value))
  }

  /** The error the anyDone case hands to finishWithTimeout. */
  function TerminalError(f: Finished, runner: string): Error
  {
    if f.err.Some? then f.err.value else RunnableStopped(f.name, runner)
  }

  /** Which select case runs, and with which error, before decoration:
      None when neither case can ever proceed (the supervisor blocks). */
  function Undecorated(runner: string, s: Schedule): Option<Option<Error>>
  {
    var slot := Replay(Unset, Attempts(s.completions, runner));
    match slot.anyDone
    case Some(f) =>
      if s.ctxCancelled && s.cancelWins then Some(None) else Some(Some(TerminalError(f, runner)))
    case None =>
      if s.ctxCancelled then Some(None) else None
  }

  /** The value the run publishes on the result channel, or None when it
      never publishes. */
  function RunOutcome(runner: string, launched: set<string>, s: Schedule): Option<Option<Error>>
  {
    match Undecorated(runner, s)
    case None => None
    case Some(err) => Some(Decorate(runner, JoinOf(launched, s), err))
  }

  /** A run publishes exactly when a runnable returns or the caller cancels. */
  lemma PublishesIff(runner: string, launched: set<string>, s: Schedule)
    ensures RunOutcome(runner, launched, s).Some? <==> s.completions != [] || s.ctxCancelled
  {
    TriggerIsFirstCompletion(s.completions, runner);
  }

  /** The first completion decides the error: its wrapped cause if it failed,
      the cause-less stop otherwise; the anyDone path never yields nil. */
  lemma TriggerPathError(runner: string, s: Schedule)
    requires s.completions != [] && !(s.ctxCancelled && s.cancelWins)
    ensures var c := s.completions[0];
            var u := Undecorated(runner, s);
            && u.Some? && u.value.Some?
            && (c.result.Some? ==>
                  && Message(u.value.value) == "runnable '" + c.name + "' failed during operation in runner[" + runner + "]: " + Message(c.result.value)
                  && Unwrap(u.value.value) == c.result)
            && (c.result.None? ==>
                  Message(u.value.value) == "runnable '" + c.name + "' finished operation without any cause in runner[" + runner + "]")
  {
    TriggerIsFirstCompletion(s.completions, runner);
  }

  /** The caller's cancellation, when its case runs, yields nil before the
      deadline decoration. */
  lemma CancelPathIsNil(runner: string, s: Schedule)
    requires s.ctxCancelled && (s.completions == [] || s.cancelWins)
    ensures Undecorated(runner, s) == Some(None)
  {
    TriggerIsFirstCompletion(s.completions, runner);
  }

  /** Only a cancelled run whose runnables all return before the deadline
      publishes nil. */
  lemma CleanStopIff(runner: string, launched: set<string>, s: Schedule)
    ensures RunOutcome(runner, launched, s) == Some(None)
        <==> s.ctxCancelled && (s.completions == [] || s.cancelWins) && JoinOf(launched, s) == JoinFirst
  {
    TriggerIsFirstCompletion(s.completions, runner);
  }

  /** A runnable that never returns makes the deadline win: whatever the run
      publishes is an error ending with the deadline marker. */
  lemma UnreturnedRunnableTimesOut(runner: string, launched: set<string>, s: Schedule)
    requires Returned(s.completions) != launched
    requires RunOutcome(runner, launched, s).Some?
    ensures RunOutcome(runner, launched, s).value.Some?
    ensures EndsWith(Message(RunOutcome(runner, launched, s).value.value), DeadlineMarker)
  {
  }

  /** A join that beats the deadline publishes the select's result unchanged. */
  lemma TimelyJoinKeepsResult(runner: string, launched: set<string>, s: Schedule)
    requires JoinOf(launched, s) == JoinFirst
    requires Undecorated(runner, s).Some?
    ensures RunOutcome(runner, launched, s) == Undecorated(runner, s)
  {
  }

  /** The clean-stop path that misses the deadline carries the sentinel text
      twice: line 204 wraps the sentinel, then line 207 always appends the
      marker. */
  lemma CancelledTimeoutMessage(runner: string)
    ensures Message(Decorate(runner, DeadlineFirst, None).value)
         == "runner[" + runner + "] shutdown procedure finished with an error: "
            + "shutdown deadline reached [shutdown deadline reached]"
  {
    var head := "runner[" + runner + "] shutdown procedure finished with an error: ";
    assert Message(Decorate(runner, DeadlineFirst, None).value) == head + Text(ErrShutdownTimeout) + DeadlineMarker;
    DoubledSentinelText();
  }

  lemma DoubledSentinelText()
    ensures Text(ErrShutdownTimeout) + DeadlineMarker == "shutdown deadline reached [shutdown deadline reached]"
  {
    var tail := "shutdown deadline reached" + " [" + "shutdown deadline reached" + "]";
    var lit := "shutdown deadline reached [shutdown deadline reached]";
    assert |tail| == |lit|;
    assert forall i | 0 <= i < |lit| :: tail[i] == lit[i];
  }
}
