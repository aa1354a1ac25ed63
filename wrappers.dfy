/** The Option type used for the source's `T | null` and optional (`?`) fields. */
module Wrappers {

  datatype Option<+T> = None | Some(value: T)

  /** The value of `o`, or `default` when `o` is None (the source's `x ?? default`). */
  function GetOr<T>(o: Option<T>, default: T): T {
    match o
    case Some(v) => v
    case None => default
  }

  /** JavaScript truthiness of an optional string: present and not empty. */
  predicate Truthy(s: Option<string>) {
    s.Some? && s.value != ""
  }
}
