/** Small value wrappers shared by the updater and packaging models. */
module Wrappers {

  /** A value that may be absent (`null` / `undefined` in the modelled code). */
  datatype Option<+T> = None | Some(value: T)

  /** The value a computation produced, or the error it threw. */
  datatype Result<+T, +E> = Success(value: T) | Failure(error: E)

  /** JavaScript truthiness of an optional string: absent and "" are both falsy. */
  predicate Truthy(s: Option<string>) {
    s.Some? && s.value != ""
  }

  /** `a || b` for an optional string and a string fallback. */
  function OrElse(a: Option<string>, b: string): string {
    if Truthy(a) then a.value else b
  }

  /**
   * A configuration value that may be absent, a single item or a list
   * (`T | T[] | null`).
   */
  datatype OneOrMany<T> = Absent | One(item: T) | Many(items: seq<T>)

  /** `asArray`: absent becomes [], a single item a one-element list, a list itself. */
  function AsArray<T>(v: OneOrMany<T>): seq<T> {
    match v
    case Absent => []
    case One(x) => [x]
    case Many(xs) => xs
  }
}
