/** Shared result shapes of the platform's controllers and models. */
module Wrappers {
  datatype Option<T> = None | Some(value: T)

  /** A thrown error (`Err`) or a produced value (`Ok`). */
  datatype Result<T, E> = Ok(value: T) | Err(error: E)

  /** The `{ success, data?, error? }` envelope every controller action returns. */
  datatype ApiResponse<T> = Success(data: T) | Failure(error: string)

  /** JavaScript truthiness of a nullable string: `null`, `undefined` and `""` are falsy. */
  predicate Truthy(s: Option<string>)
  {
    s.Some? && s.value != ""
  }

  /** `a || fallback` where `a` is a nullable string. */
  function OrElse(a: Option<string>, fallback: string): (r: string)
    ensures Truthy(a) ==> r == a.value
    ensures !Truthy(a) ==> r == fallback
  {
    if Truthy(a) then a.value else fallback
  }
}
