/** The default runner (runner_default.go): a registry of runnables and their
    shutdown handlers, a one-way `started` flag, and the supervisor that runs
    once per Start and publishes one value on `r.done`.

    Goroutines, locks, contexts and timers are not modelled: the supervisor
    goroutine is the method Supervise, whose timing comes in a `Schedule`. */
module DefaultRunner {
  import opened Wrappers
  import opened Errors
  import opened Trigger
  import opened Shutdown
  import opened ResultChannel

  /** Handles for the user's callbacks; their bodies are never observed. */
  datatype RunnableFunc = RunnableFunc(id: nat)
  datatype ShutdownFunc = ShutdownFunc(id: nat)

  /** The defaults New applies (runner.go): 10 seconds, in nanoseconds as a
      Go time.Duration, and the name "default". */
  const DefaultShutdownTimeout: nat := 10_000_000_000
  const DefaultName: string := "default"

  /** Where the supervisor goroutine launched by the first Start is: not
      launched (preflight failed or Start not called), waiting at the select,
      blocked there for good, or done after publishing. */
  datatype RunState = NotLaunched | Running | Parked | Completed

  /** What the supervisor does between the select and the publication, in
      order: the internal cancel(), then one call per shutdown handler (the
      handlers run in Go map order, so only how often each is called is kept). */
  datatype Action = CancelRuns | InvokeShutdowns(calls: multiset<string>)

  class Runner {
    const name: string
    const shutdownTimeout: nat
    const done: ErrorChannel
    var runnables: map<string, RunnableFunc>
    var shutdowns: map<string, ShutdownFunc>
    var started: bool
    var run: RunState

    ghost predicate Valid()
      reads this, done
    {
      && shutdowns.Keys <= runnables.Keys
      && done.Valid()
      && (!started ==> run == NotLaunched && done.buffer == [] && !done.closed && !done.panicked)
      && (run != NotLaunched ==> started && |runnables| > 0)
    }

    /** newRunner; the debug printer is not modelled. */
    constructor (shutdownTimeout: nat, name: string)
      ensures Valid() && fresh(done)
      ensures this.name == name && this.shutdownTimeout == shutdownTimeout
      ensures runnables == map[] && shutdowns == map[] && !started && run == NotLaunched
    {
      this.name := name;
      this.shutdownTimeout := shutdownTimeout;
      done := new ErrorChannel();
      runnables, shutdowns := map[], map[];
      started, run := false, NotLaunched;
    }

    method RegisterRunnableHandler(n: string, f: RunnableFunc) returns (err: Option<Error>)
      requires Valid()
      modifies this
      ensures Valid()
      ensures shutdowns == old(shutdowns) && started == old(started) && run == old(run)
      ensures old(started) ==>
                err == Some(RegisterShutdownFailure(n, ErrAlreadyStarted)) && runnables == old(runnables)
      ensures !old(started) && n in old(runnables) ==>
                err == Some(RegisterRunnableFailure(n)) && runnables == old(runnables)
      ensures !old(started) && n !in old(runnables) ==>
                err == None && runnables == old(runnables)[n := f]
    {
      if started {
        return Some(RegisterShutdownFailure(n, ErrAlreadyStarted));
      }
      if n in runnables {
        return Some(RegisterRunnableFailure(n));
      }
      runnables := runnables[n := f];
      return None;
    }

    method RegisterRunnableShutdown(n: string, f: ShutdownFunc) returns (err: Option<Error>)
      requires Valid()
      modifies this
      ensures Valid()
      ensures runnables == old(runnables) && started == old(started) && run == old(run)
      ensures old(started) ==>
                err == Some(RegisterShutdownFailure(n, ErrAlreadyStarted)) && shutdowns == old(shutdowns)
      ensures !old(started) && n !in runnables ==>
                err == Some(RegisterShutdownFailure(n, ErrRunnableNotFound)) && shutdowns == old(shutdowns)
      ensures !old(started) && n in runnables && n in old(shutdowns) ==>
                err == Some(RegisterShutdownFailure(n, ErrShutdownAlreadyDefined)) && shutdowns == old(shutdowns)
      ensures !old(started) && n in runnables && n !in old(shutdowns) ==>
                err == None && shutdowns == old(shutdowns)[n := f]
    {
      if started {
        return Some(RegisterShutdownFailure(n, ErrAlreadyStarted));
      }
      if n !in runnables {
        return Some(RegisterShutdownFailure(n, ErrRunnableNotFound));
      }
      if n in shutdowns {
        return Some(RegisterShutdownFailure(n, ErrShutdownAlreadyDefined));
      }
      shutdowns := shutdowns[n := f];
      return None;
    }

    /** Start up to the point where it returns: the preflight checks, which
        publish at once and undecorated, or the launch of the runnables. The
        channel returned is always the runner's one `done` channel. */
    method Start() returns (ch: ErrorChannel)
      requires Valid()
      modifies this, done
      ensures Valid() && ch == done && started
      ensures runnables == old(runnables) && shutdowns == old(shutdowns)
      ensures old(started) ==>
                run == old(run) && done.Published(Some(StartFailure(name, ErrAlreadyStarted)))
      ensures !old(started) && |runnables| == 0 ==>
                run == NotLaunched && done.Published(Some(StartFailure(name, ErrNoRunnables)))
      ensures !old(started) && |runnables| > 0 ==>
                run == Running && unchanged(done)
    {
      if started {
        FinishWithTimeout(NoJoin, Some(StartFailure(name, ErrAlreadyStarted)));
      } else if |runnables| == 0 {
        FinishWithTimeout(NoJoin, Some(StartFailure(name, ErrNoRunnables)));
      } else {
        run := Running;
      }
      started := true;
      ch := done;
    }

    /** Start as evidently intended for a runner already started: the
        AlreadyStarted failure goes to a channel of its own, and the first
        run's channel is left alone. */
    method StartIsolated() returns (ch: ErrorChannel)
      requires Valid()
      modifies this, done
      ensures Valid() && started
      ensures runnables == old(runnables) && shutdowns == old(shutdowns)
      ensures old(started) ==>
                && fresh(ch) && ch.Valid() && ch.closed && !ch.panicked
                && ch.buffer == [Some(StartFailure(name, ErrAlreadyStarted))]
                && run == old(run) && unchanged(done)
      ensures !old(started) ==> ch == done
      ensures !old(started) && |runnables| == 0 ==>
                run == NotLaunched && done.Published(Some(StartFailure(name, ErrNoRunnables)))
      ensures !old(started) && |runnables| > 0 ==>
                run == Running && unchanged(done)
    {
      if started {
        ch := new ErrorChannel();
        ch.SendThenClose(Some(StartFailure(name, ErrAlreadyStarted)));
      } else {
        ch := Start();
      }
    }

    /** The supervisor goroutine after `ready`: the completions race, the
        select, cancel(), the shutdown handlers and the publication. */
    method Supervise(s: Schedule) returns (actions: seq<Action>)
      requires Valid() && run == Running
      requires WellFormed(s, runnables.Keys)
      modifies this, done
      ensures Valid()
      ensures runnables == old(runnables) && shutdowns == old(shutdowns) && started
      ensures RunOutcome(name, runnables.Keys, s).None? ==>
                run == Parked && actions == [] && unchanged(done)
      ensures RunOutcome(name, runnables.Keys, s).Some? ==>
                && run == Completed
                && actions == [CancelRuns, InvokeShutdowns(multiset(shutdowns.Keys))]
                && done.Published(RunOutcome(name, runnables.Keys, s).value)
    {
      var isAnyDone, anyDone := AwaitCompletions(s.completions);
      var join := JoinOf(runnables.Keys, s);
      if anyDone.Some? && !(s.ctxCancelled && s.cancelWins) {
        var finDTO := anyDone.value;
        var err := finDTO.err;
        if err.None? {
          err := Some(RunnableStopped(finDTO.name, name));
        }
        actions := [CancelRuns];
        var calls := TriggerShutdownHandlers();
        actions := actions + [InvokeShutdowns(calls)];
        FinishWithTimeout(join, err);
        run := Completed;
      } else if s.ctxCancelled {
        actions := [CancelRuns];
        var calls := TriggerShutdownHandlers();
        actions := actions + [InvokeShutdowns(calls)];
        FinishWithTimeout(join, None);
        run := Completed;
      } else {
        actions := [];
        run := Parked;
      }
    }

    /** The reports of the runnables' goroutines, taken in lock order: each
        failing runnable reports its wrapped error, then every runnable makes
        its deferred nil report, each as a check-and-set on the flag. */
    method AwaitCompletions(completions: seq<Completion>) returns (isAnyDone: bool, anyDone: Option<Finished>)
      ensures Slot(isAnyDone, anyDone) == Replay(Unset, Attempts(completions, name))
    {
      isAnyDone, anyDone := false, None;
      for i := 0 to |completions|
        invariant Slot(isAnyDone, anyDone) == Replay(Unset, Attempts(completions[..i], name))
      {
        var c := completions[i];
        assert completions[..i + 1] == completions[..i] + [c];
        AttemptsAppend(completions[..i], c, name);
        ReplayAppend(Unset, Attempts(completions[..i], name), Reports(c, name));
        ReplayReports(Slot(isAnyDone, anyDone), c, name);
        if c.result.Some? {
          if !isAnyDone {
            anyDone := Some(Finished(c.name, Some(RunnableFailed(c.name, name, c.result.value))));
            isAnyDone := true;
          }
        }
        if !isAnyDone {
          anyDone := Some(Finished(c.name, None));
          isAnyDone := true;
        }
      }
      assert completions[..|completions|] == completions;
    }

    /** triggerRunnableShutdownHandlers: one call per registered handler. */
    method TriggerShutdownHandlers() returns (calls: multiset<string>)
      ensures calls == multiset(shutdowns.Keys)
    {
      calls := multiset{};
      var pending := shutdowns.Keys;
      while pending != {}
        invariant pending <= shutdowns.Keys
        invariant calls == multiset(shutdowns.Keys - pending)
        decreases pending
      {
        var n :| n in pending;
        assert shutdowns.Keys - (pending - {n}) == (shutdowns.Keys - pending) + {n};
        calls := calls + multiset{n};
        pending := pending - {n};
      }
    }

    /** finishWithTimeout: the error is rewritten step by step when the
        deadline wins, then published once by the deferred send and close. */
    method FinishWithTimeout(join: JoinOutcome, err: Option<Error>)
      requires done.Valid()
      modifies done
      ensures done.Valid() && done.Published(Decorate(name, join, err))
    {
      var e := err;
      if join == DeadlineFirst {
        if e.None? {
          e := Some(ShutdownFailed(name));
        }
        if e.Some? {
          e := Some(WithDeadlineMarker(e.value));
        }
      }
      done.SendThenClose(e);
    }
  }
}
