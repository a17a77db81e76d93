// Values shared by every service: optional values, results, and Go errors
// with their `%w` wrapping chains.
module Common {

  datatype Option<T> = None | Some(value: T)

  datatype Result<T> = Ok(value: T) | Err(error: Error)

  /** A Go `error` value.  The two sentinels of the survey service are
      distinguished values so that `errors.Is` can find them; `Plain` is an
      `errors.New` / `fmt.Errorf` without `%w`; `Wrapped` is
      `fmt.Errorf(prefix + "%w", cause)`. */
  datatype Error =
    | ErrForbidden
    | ErrNotFound
    | Plain(text: string)
    | Wrapped(prefix: string, cause: Error)

  /** The text `err.Error()` returns. */
  function Message(e: Error): string
  {
    match e
    case ErrForbidden => "forbidden"
    case ErrNotFound => "not found"
    case Plain(text) => text
    case Wrapped(prefix, cause) => prefix + Message(cause)
  }

  /** `errors.Is(e, target)`: `target` is `e` or one of the errors `e` wraps.
      `Plain` errors compare by text here, where Go compares `errors.New`
      values by identity; the sentinels are their own constructors, so no
      contract depends on the difference. */
  predicate ErrorIs(e: Error, target: Error)
  {
    e == target || (e.Wrapped? && ErrorIs(e.cause, target))
  }

  /** The message of a wrapped error ends with the message of every error it
      wraps: `p` is the text the wrappers put in front. */
  lemma {:induction false} WrappedMessageEndsWithCause(e: Error, target: Error) returns (p: string)
    requires ErrorIs(e, target)
    ensures Message(e) == p + Message(target)
  {
    if e == target {
      p := "";
    } else {
      var q := WrappedMessageEndsWithCause(e.cause, target);
      p := e.prefix + q;
    }
  }
}
