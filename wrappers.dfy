/** The optional value used throughout the model for JavaScript's
    `null`/`undefined` and for absent query parameters, the result of an
    operation that can fail, and the order-keeping sub-sequence relation
    that the list filters satisfy. */
module Wrappers {

  datatype Option<+T> = None | Some(value: T) {

    /** The wrapped value, or `default` when there is none. */
    function GetOr(default: T): T {
      match this
      case Some(v) => v
      case None => default
    }
  }

  /** The outcome of an operation that can fail with an error value. */
  datatype Result<+T, +E> = Ok(value: T) | Err(error: E)

  /** `s` can be obtained from `t` by deleting elements: the kept elements
      are in their order in `t`. */
  predicate Subsequence<T(==)>(s: seq<T>, t: seq<T>)
  {
    if s == [] then true
    else if t == [] then false
    else if s[0] == t[0] then Subsequence(s[1..], t[1..])
    else Subsequence(s, t[1..])
  }
}
