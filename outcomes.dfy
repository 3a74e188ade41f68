/** Results and the errors a multimethod raises. */
module Outcomes {
  import opened Patterns

  datatype Option<T> = None | Some(value: T)

  /** What an operation raises: the two `DispatchException`s of the resolver,
      the plain `Exception` of `prefer` and the `KeyError` of `removemethod`.
      Each carries the values its message names, except the multimethod's
      name. */
  datatype Error =
    /** `prefer(x, y)` when `y` is already preferred to `x`. */
    | PreferenceConflict(x: Pattern, y: Pattern)
    /** The key just visited and the running best both match, neither
        dominates the other, and they are bound to different
        implementations. */
    | AmbiguousDispatch(dv: Pattern, key: Pattern, best: Pattern)
    /** Nothing matched and no `Default` implementation is registered. */
    | NoMatchingMethod(dv: Pattern)
    /** `removemethod` of a key that is not registered (`KeyError`). */
    | KeyNotFound(key: Pattern)

  /** A value, or the error raised instead of returning it. */
  datatype Result<T> = Ok(value: T) | Err(error: Error)

  /** An operation that returns nothing, or the error it raised. */
  datatype Outcome = Pass | Fail(error: Error)
}
