/** Small shared vocabulary: optional values, results that carry an error
    text, and sequence prefixes. */
module Common {

  datatype Option<+T> = None | Some(value: T)

  /** A computation that either produced a value or raised an error whose
      message is `error` (a JavaScript `throw new Error(error)`). */
  datatype Result<+T> = Success(value: T) | Failure(error: string)

  /** `p` is a prefix of `s`. */
  predicate HasPrefix<T(==)>(p: seq<T>, s: seq<T>)
  {
    |p| <= |s| && s[..|p|] == p
  }
}
