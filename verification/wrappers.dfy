/** Optional values, success/failure results and bytes, shared by every module. */
module Wrappers {

  /** An octet, as the byte-level encodings (UTF-8, base 64, percent-encoding) see it. */
  type Byte = b: int | 0 <= b < 256

  /** A value that may be absent: the model's reading of a JavaScript `undefined` field. */
  datatype Option<+T> = None | Some(value: T) {

    /** The encapsulated value, or `default` when absent. */
    function GetOr(default: T): T {
      match this
      case Some(v) => v
      case None => default
    }
  }

  /** The outcome of an operation that either produces a value or fails with an error. */
  datatype Result<+T, +E> = Success(value: T) | Failure(error: E)

  /** JavaScript truthiness of an optional string: present and non-empty. */
  predicate Truthy(s: Option<string>) {
    s.Some? && s.value != ""
  }
}
