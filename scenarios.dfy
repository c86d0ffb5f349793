/** The runner's test cases (runner_test.go) and the behaviour of a second
    Start, each as a client of the model with its timing fixed by a Schedule.
    Runnable and runner names are parameters; the tests use
    "test-runnable-1", "test-runnable-2", "test-runnable-3-with-shutdown-func"
    and the runner names "test" and "default". */
module Scenarios {
  import opened Wrappers
  import opened Errors
  import opened Trigger
  import opened Shutdown
  import opened ResultChannel
  import opened DefaultRunner

  const OneSecond: nat := 1_000_000_000

  /** Three runnables that stop when cancelled, the third only through its
      shutdown handler; the caller cancels before any of them returns. The
      run publishes nil, and the one handler is called once, after cancel(). */
  method CancelledContextStopsCleanly(runnerName: string, n1: string, n2: string, n3: string)
    returns (r: Received, actions: seq<Action>)
    requires n1 != n2 && n1 != n3 && n2 != n3
    ensures r == Value(None)
    ensures actions == [CancelRuns, InvokeShutdowns(multiset{n3})]
  {
    var runner := new Runner(OneSecond, runnerName);
    var e1 := runner.RegisterRunnableHandler(n1, RunnableFunc(1));
    var e2 := runner.RegisterRunnableHandler(n2, RunnableFunc(2));
    var e3 := runner.RegisterRunnableHandler(n3, RunnableFunc(3));
    var e4 := runner.RegisterRunnableShutdown(n3, ShutdownFunc(3));
    assert runner.runnables.Keys == {n1, n2, n3};
    assert runner.shutdowns.Keys == {n3};
    var ch := runner.Start();
    var c1, c2, c3 := Completion(n1, None), Completion(n2, None), Completion(n3, None);
    var s := Schedule([c1, c2, c3], true, true, true);
    ReturnedOfThree(c1, c2, c3);
    CleanStopIff(runnerName, {n1, n2, n3}, s);
    actions := runner.Supervise(s);
    assert multiset(runner.shutdowns.Keys) == multiset{n3};
    assert ch.buffer == [None];
    r := ch.Receive();
  }

  /** Two runnables, the first returns nil at once while the second waits for
      cancellation: the nil return is the trigger and still an error. */
  method NilReturnStopsRunner(runnerName: string, n1: string, n2: string) returns (r: Received)
    requires n1 != n2
    ensures r == Value(Some(RunnableStopped(n1, runnerName)))
  {
    var runner := new Runner(OneSecond, runnerName);
    var e1 := runner.RegisterRunnableHandler(n1, RunnableFunc(1));
    var e2 := runner.RegisterRunnableHandler(n2, RunnableFunc(2));
    var ch := runner.Start();
    var c1, c2 := Completion(n1, None), Completion(n2, None);
    var s := Schedule([c1, c2], true, false, true);
    assert s.completions[1..] == [c2] && [c2][1..] == [];
    assert Returned([c2]) == {n2};
    assert Returned(s.completions) == runner.runnables.Keys;
    TriggerIsFirstCompletion(s.completions, runnerName);
    var _ := runner.Supervise(s);
    r := ch.Receive();
  }

  /** Two runnables, the first fails at once while the second waits for
      cancellation: the failure, wrapped and attributed, is the result. */
  method FailureStopsRunner(runnerName: string, n1: string, n2: string, cause: Error) returns (r: Received)
    requires n1 != n2
    ensures r == Value(Some(RunnableFailed(n1, runnerName, cause)))
  {
    var runner := new Runner(OneSecond, runnerName);
    var e1 := runner.RegisterRunnableHandler(n1, RunnableFunc(1));
    var e2 := runner.RegisterRunnableHandler(n2, RunnableFunc(2));
    var ch := runner.Start();
    var c1, c2 := Completion(n1, Some(cause)), Completion(n2, None);
    var s := Schedule([c1, c2], true, false, true);
    assert s.completions[1..] == [c2] && [c2][1..] == [];
    assert Returned([c2]) == {n2};
    assert Returned(s.completions) == runner.runnables.Keys;
    TriggerIsFirstCompletion(s.completions, runnerName);
    var _ := runner.Supervise(s);
    r := ch.Receive();
  }

  /** The second runnable ignores cancellation and has no shutdown handler,
      so it never returns: the failure that triggered the shutdown comes back
      with the deadline marker. */
  method IgnoredCancellationTimesOut(runnerName: string, n1: string, n2: string, cause: Error) returns (r: Received)
    requires n1 != n2
    ensures r.Value? && r.err.Some?
    ensures EndsWith(Message(r.err.value), DeadlineMarker)
    ensures Unwrap(r.err.value) == Some(RunnableFailed(n1, runnerName, cause))
  {
    var runner := new Runner(OneSecond, runnerName);
    var e1 := runner.RegisterRunnableHandler(n1, RunnableFunc(1));
    var e2 := runner.RegisterRunnableHandler(n2, RunnableFunc(2));
    var ch := runner.Start();
    var s := Schedule([Completion(n1, Some(cause))], false, false, true);
    assert s.completions[1..] == [];
    assert Returned(s.completions) == {n1};
    TriggerIsFirstCompletion(s.completions, runnerName);
    var _ := runner.Supervise(s);
    r := ch.Receive();
  }

  /** A second Start after the run has published sends on the closed result
      channel: Go panics. */
  method SecondStartAfterRunPanics(runnerName: string, n: string) returns (first: Received, panicked: bool)
    ensures first == Value(Some(RunnableStopped(n, runnerName)))
    ensures panicked
  {
    var runner := new Runner(OneSecond, runnerName);
    var e1 := runner.RegisterRunnableHandler(n, RunnableFunc(1));
    var ch := runner.Start();
    var s := Schedule([Completion(n, None)], false, false, true);
    assert s.completions[1..] == [];
    TriggerIsFirstCompletion(s.completions, runnerName);
    var _ := runner.Supervise(s);
    var ch2 := runner.Start();
    first := ch.Receive();
    panicked := ch2.panicked;
  }

  /** A second Start while the first run is still going puts its own failure
      on the first caller's channel and closes it; the first run's own
      publication then panics. */
  method SecondStartDuringRunHijacks(runnerName: string, n: string) returns (first: Received, panicked: bool)
    ensures first == Value(Some(StartFailure(runnerName, ErrAlreadyStarted)))
    ensures panicked
  {
    var runner := new Runner(OneSecond, runnerName);
    var e1 := runner.RegisterRunnableHandler(n, RunnableFunc(1));
    var ch := runner.Start();
    var ch2 := runner.Start();
    first := ch.Receive();
    var s := Schedule([Completion(n, None)], false, false, true);
    assert s.completions[1..] == [];
    TriggerIsFirstCompletion(s.completions, runnerName);
    var _ := runner.Supervise(s);
    panicked := ch.panicked;
  }

  /** With StartIsolated the second Start gets its own AlreadyStarted result
      and the first run publishes its own result without a panic. */
  method SecondStartIsolated(runnerName: string, n: string) returns (first: Received, second: Received, panicked: bool)
    ensures first == Value(Some(RunnableStopped(n, runnerName)))
    ensures second == Value(Some(StartFailure(runnerName, ErrAlreadyStarted)))
    ensures !panicked
  {
    var runner := new Runner(OneSecond, runnerName);
    var e1 := runner.RegisterRunnableHandler(n, RunnableFunc(1));
    var ch := runner.StartIsolated();
    var ch2 := runner.StartIsolated();
    second := ch2.Receive();
    var s := Schedule([Completion(n, None)], false, false, true);
    assert s.completions[1..] == [];
    TriggerIsFirstCompletion(s.completions, runnerName);
    var _ := runner.Supervise(s);
    first := ch.Receive();
    panicked := ch.panicked || ch2.panicked;
  }

  lemma ReturnedOfThree(c1: Completion, c2: Completion, c3: Completion)
    ensures Returned([c1, c2, c3]) == {c1.name, c2.name, c3.name}
  {
    assert [c3][1..] == [];
    assert Returned([c3]) == {c3.name};
    assert [c2, c3][1..] == [c3];
    assert Returned([c2, c3]) == {c2.name} + Returned([c3]);
    assert [c1, c2, c3][1..] == [c2, c3];
    assert Returned([c1, c2, c3]) == {c1.name} + Returned([c2, c3]);
  }
}
