/** The runner's result channel `r.done`: a Go `chan error` with a buffer of
    one, created once per runner (runner_default.go:32). Every write in the
    runner is the deferred pair "send, then close" of finishWithTimeout
    (runner_default.go:191-194); it is modelled as one step. A send on a
    closed channel makes Go panic; `panicked` records that it happened. */
module ResultChannel {
  import opened Wrappers
  import opened Errors

  /** What a receive `v, ok := <-ch` observes. */
  datatype Received =
    | Value(err: Option<Error>)  // a buffered value, ok == true
    | Exhausted                  // closed and drained: nil, ok == false
    | WouldBlock                 // open and empty: the receiver waits

  class ErrorChannel {
    var buffer: seq<Option<Error>>
    var closed: bool
    var panicked: bool

    ghost predicate Valid()
      reads this
    {
      |buffer| <= 1 && (!closed ==> buffer == [])
    }

    constructor ()
      ensures Valid() && buffer == [] && !closed && !panicked
    {
      buffer, closed, panicked := [], false, false;
    }

    /** The effect of SendThenClose(v) between the old state and now. */
    twostate predicate Published(v: Option<Error>)
      reads this
    {
      && closed
      && (old(closed) ==> buffer == old(buffer) && panicked)
      && (!old(closed) ==> buffer == [v] && panicked == old(panicked))
    }

    /** `ch <- v; close(ch)`: only the first of these ever delivers a value. */
    method SendThenClose(v: Option<Error>)
      requires Valid()
      modifies this
      ensures Valid() && Published(v)
    {
      if closed {
        panicked := true;
      } else {
        buffer := [v];
        closed := true;
      }
    }

    method Receive() returns (r: Received)
      requires Valid()
      modifies this
      ensures Valid() && closed == old(closed) && panicked == old(panicked)
      ensures old(buffer) != [] ==> r == Value(old(buffer)[0]) && buffer == []
      ensures old(buffer) == [] ==> buffer == [] && r == if closed then Exhausted else WouldBlock
    {
      if buffer != [] {
        r := Value(buffer[0]);
        buffer := [];
      } else if closed {
        r := Exhausted;
      } else {
        r := WouldBlock;
      }
    }
  }
}
