/** Selection of the triggering completion (runner_default.go:93-133).

    Every launched runnable reports under `runLock` when it returns: first,
    if it returned an error, a report carrying the wrapped error; then, from
    its deferred function, a report carrying nil. Each report is a
    check-and-set on the pair (`isAnyDone`, `anyDone`). The lock serialises
    the reports, so the whole race is a sequence of reports in lock order and
    the slot is what replaying them leaves behind. */
module Trigger {
  import opened Wrappers
  import opened Errors

  /** A runnable that returned: its name and what its RunnableFunc returned. */
  datatype Completion = Completion(name: string, result: Option<Error>)

  /** The `finishedDTO` placed in `anyDone`. */
  datatype Finished = Finished(name: string, err: Option<Error>)

  /** `isAnyDone` together with the content of the one-slot `anyDone` channel. */
  datatype Slot = Slot(isAnyDone: bool, anyDone: Option<Finished>)

  const Unset: Slot := Slot(false, None)

  /** One critical section: only a report that finds the flag down is kept. */
  function CheckAndSet(s: Slot, f: Finished): Slot
  {
    if s.isAnyDone then s else Slot(true, Some(f))
  }

  /** The reports one completion makes, in the order it makes them. */
  function Reports(c: Completion, runner: string): seq<Finished>
  {
    (if c.result.Some? then [Finished(c.name, Some(RunnableFailed(c.name, runner, c.result.value)))] else [])
    + [Finished(c.name, None)]
  }

  /** All reports of a sequence of completions given in lock order. */
  function Attempts(cs: seq<Completion>, runner: string): seq<Finished>
  {
    if cs == [] then [] else Reports(cs[0], runner) + Attempts(cs[1..], runner)
  }

  /** The slot after the given reports have run their critical sections. */
  function Replay(s: Slot, fs: seq<Finished>): Slot
    decreases |fs|
  {
    if fs == [] then s else Replay(CheckAndSet(s, fs[0]), fs[1..])
  }

  /** Reference definition of the trigger: the first runnable to complete,
      with its wrapped error if it returned one and nil otherwise. */
  function FirstTrigger(cs: seq<Completion>, runner: string): Option<Finished>
  {
    if cs == [] then None
    else Some(Finished(cs[0].name,
                       match cs[0].result
                       case Some(cause) => Some(RunnableFailed(cs[0].name, runner, cause))
                       case None => None))
  }

  /** Once the flag is up, no later report changes the slot. */
  lemma {:induction false} ReplayAfterSet(s: Slot, fs: seq<Finished>)
    requires s.isAnyDone
    ensures Replay(s, fs) == s
    decreases |fs|
  {
    if fs != [] {
      ReplayAfterSet(CheckAndSet(s, fs[0]), fs[1..]);
    }
  }

  lemma {:induction false} ReplayAppend(s: Slot, a: seq<Finished>, b: seq<Finished>)
    ensures Replay(s, a + b) == Replay(Replay(s, a), b)
    decreases |a|
  {
    if a == [] {
      assert a + b == b;
    } else {
      assert (a + b)[0] == a[0];
      assert (a + b)[1..] == a[1..] + b;
      ReplayAppend(CheckAndSet(s, a[0]), a[1..], b);
    }
  }

  lemma {:induction false} AttemptsAppend(cs: seq<Completion>, c: Completion, runner: string)
    ensures Attempts(cs + [c], runner) == Attempts(cs, runner) + Reports(c, runner)
  {
    if cs == [] {
      assert [c][1..] == [];
    } else {
      assert (cs + [c])[0] == cs[0];
      assert (cs + [c])[1..] == cs[1..] + [c];
      AttemptsAppend(cs[1..], c, runner);
    }
  }

  /** The flag goes up at most once and the slot is written at most once: a
      slot that is set after some prefix of the reports stays exactly as it
      is for every longer prefix. */
  lemma SlotWrittenOnce(s: Slot, fs: seq<Finished>, i: nat, j: nat)
    requires i <= j <= |fs|
    requires Replay(s, fs[..i]).isAnyDone
    ensures Replay(s, fs[..j]) == Replay(s, fs[..i])
  {
    assert fs[..j] == fs[..i] + fs[i..j];
    ReplayAppend(s, fs[..i], fs[i..j]);
    ReplayAfterSet(Replay(s, fs[..i]), fs[i..j]);
  }

  /** The flag is up exactly when some report ran, and the first report wins. */
  lemma FirstReportWins(fs: seq<Finished>)
    ensures Replay(Unset, fs) == if fs == [] then Unset else Slot(true, Some(fs[0]))
  {
    if fs != [] {
      ReplayAfterSet(Slot(true, Some(fs[0])), fs[1..]);
    }
  }

  /** One completion's reports, replayed: the error report (if any) and then
      the deferred nil report, each a check-and-set. */
  lemma ReplayReports(s: Slot, c: Completion, runner: string)
    ensures Replay(s, Reports(c, runner))
         == var failed := if c.result.Some?
                          then CheckAndSet(s, Finished(c.name, Some(RunnableFailed(c.name, runner, c.result.value))))
                          else s;
            CheckAndSet(failed, Finished(c.name, None))
  {
    var fs := Reports(c, runner);
    if c.result.Some? {
      var s1 := CheckAndSet(s, fs[0]);
      assert Replay(s, fs) == Replay(s1, fs[1..]);
      assert fs[1..][0] == Finished(c.name, None);
      assert fs[1..][1..] == [];
      assert Replay(s1, fs[1..]) == Replay(CheckAndSet(s1, fs[1..][0]), []);
    } else {
      assert fs[1..] == [];
    }
  }

  /** "First" means first to complete: the slot holds the first completion in
      lock order, whether it failed or returned nil, and nothing else. */
  lemma TriggerIsFirstCompletion(cs: seq<Completion>, runner: string)
    ensures Replay(Unset, Attempts(cs, runner)) == Slot(cs != [], FirstTrigger(cs, runner))
  {
    var fs := Attempts(cs, runner);
    FirstReportWins(fs);
    if cs != [] {
      assert fs[0] == Reports(cs[0], runner)[0];
    }
  }

  /** A runnable that returned an error records the wrapped error, and its own
      deferred nil report, or any later report, cannot overwrite it. */
  lemma FailureNotOverwritten(c: Completion, later: seq<Finished>, runner: string)
    requires c.result.Some?
    ensures Replay(Unset, Reports(c, runner) + later).anyDone
         == Some(Finished(c.name, Some(RunnableFailed(c.name, runner, c.result.value))))
  {
    FirstReportWins(Reports(c, runner) + later);
  }
}
