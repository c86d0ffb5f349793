/** The error values of the runner: the package sentinels of types.go and the
    wrapped errors built by fmt.Errorf in runner_default.go.

    A Go error is modelled by how it was made: `Base` is a sentinel made by
    errors.New, `Opaque` an error returned by a user's RunnableFunc (only its
    text is observed), `Wrapped` an fmt.Errorf with exactly one %w verb (its
    text is prefix + inner text + suffix and it unwraps to the inner error),
    and `Formatted` an fmt.Errorf without %w (it unwraps to nothing). */
module Errors {
  import opened Wrappers

  datatype Sentinel =
    | ErrAlreadyStarted
    | ErrRunnableAlreadyDefined
    | ErrShutdownAlreadyDefined
    | ErrRunnableNotFound
    | ErrNoRunnables
    | ErrShutdownTimeout

  /** The texts the sentinels are created with. */
  function Text(s: Sentinel): string
  {
    match s
    case ErrAlreadyStarted => "runner has been already started"
    case ErrRunnableAlreadyDefined => "runnable already defined"
    case ErrShutdownAlreadyDefined => "shutdown for runnable already defined"
    case ErrRunnableNotFound => "runnable not found"
    case ErrNoRunnables => "nothing to run"
    case ErrShutdownTimeout => "shutdown deadline reached"
  }

  datatype Error =
    | Base(sentinel: Sentinel)
    | Opaque(text: string)
    | Wrapped(prefix: string, inner: Error, suffix: string)
    | Formatted(text: string)

  /** The text `Error()` returns. */
  function Message(e: Error): string
  {
    match e
    case Base(s) => Text(s)
    case Opaque(t) => t
    case Wrapped(p, inner, sfx) => p + Message(inner) + sfx
    case Formatted(t) => t
  }

  /** `errors.Unwrap`. */
  function Unwrap(e: Error): Option<Error>
  {
    if e.Wrapped? then Some(e.inner) else None
  }

  /** `errors.Is(e, target)` for a package sentinel: some error on the unwrap
      chain of `e` is that sentinel. User errors are treated as leaves. */
  predicate Is(e: Error, target: Sentinel)
  {
    match e
    case Base(s) => s == target
    case Opaque(_) => false
    case Wrapped(_, inner, _) => Is(inner, target)
    case Formatted(_) => false
  }

  predicate StartsWith(s: string, prefix: string)
  {
    |prefix| <= |s| && s[..|prefix|] == prefix
  }

  predicate EndsWith(s: string, suffix: string)
  {
    |suffix| <= |s| && s[|s| - |suffix|..] == suffix
  }

  /** Registration failure of RegisterRunnableHandler when the name is taken. */
  function RegisterRunnableFailure(name: string): (e: Error)
    ensures forall t :: Is(e, t) <==> t == ErrRunnableAlreadyDefined
    ensures Unwrap(e) == Some(Base(ErrRunnableAlreadyDefined))
    ensures Message(e) == "failed to register runnable '" + name + "': " + Text(ErrRunnableAlreadyDefined)
  {
    Wrapped("failed to register runnable '" + name + "': ", Base(ErrRunnableAlreadyDefined), "")
  }

  /** Registration failure worded for shutdown handlers; the source also uses
      this wording when RegisterRunnableHandler is called after start. */
  function RegisterShutdownFailure(name: string, s: Sentinel): (e: Error)
    ensures forall t :: Is(e, t) <==> t == s
    ensures Unwrap(e) == Some(Base(s))
    ensures Message(e) == "failed to register shutdown handler for runnable '" + name + "': " + Text(s)
  {
    Wrapped("failed to register shutdown handler for runnable '" + name + "': ", Base(s), "")
  }

  /** The preflight failure of Start. */
  function StartFailure(runner: string, s: Sentinel): (e: Error)
    ensures forall t :: Is(e, t) <==> t == s
    ensures Unwrap(e) == Some(Base(s))
    ensures Message(e) == "runner[" + runner + "] start cannot be completed: " + Text(s)
  {
    Wrapped("runner[" + runner + "] start cannot be completed: ", Base(s), "")
  }

  /** A runnable returned `cause`: the report keeps `cause` on its chain. */
  function RunnableFailed(name: string, runner: string, cause: Error): (e: Error)
    ensures Unwrap(e) == Some(cause)
    ensures forall t :: Is(e, t) <==> Is(cause, t)
    ensures Message(e) == "runnable '" + name + "' failed during operation in runner[" + runner + "]: " + Message(cause)
  {
    Wrapped("runnable '" + name + "' failed during operation in runner[" + runner + "]: ", cause, "")
  }

  /** A runnable returned nil: a plain error that wraps no sentinel. */
  function RunnableStopped(name: string, runner: string): (e: Error)
    ensures Unwrap(e) == None
    ensures forall t :: !Is(e, t)
    ensures Message(e) == "runnable '" + name + "' finished operation without any cause in runner[" + runner + "]"
  {
    Formatted("runnable '" + name + "' finished operation without any cause in runner[" + runner + "]")
  }

  /** The fresh timeout error of a clean stop that missed the deadline. */
  function ShutdownFailed(runner: string): (e: Error)
    ensures forall t :: Is(e, t) <==> t == ErrShutdownTimeout
    ensures Message(e) == "runner[" + runner + "] shutdown procedure finished with an error: " + Text(ErrShutdownTimeout)
  {
    Wrapped("runner[" + runner + "] shutdown procedure finished with an error: ", Base(ErrShutdownTimeout), "")
  }

  /** The marker appended when the shutdown deadline wins. */
  const DeadlineMarker: string := " [" + Text(ErrShutdownTimeout) + "]"

  /** The marker is added with %s, not %w: the decorated error answers
      errors.Is exactly as the original does. */
  function WithDeadlineMarker(e: Error): (r: Error)
    ensures Unwrap(r) == Some(e)
    ensures forall t :: Is(r, t) <==> Is(e, t)
    ensures Message(r) == Message(e) + DeadlineMarker
    ensures EndsWith(Message(r), DeadlineMarker)
  {
    Wrapped("", e, DeadlineMarker)
  }
}
