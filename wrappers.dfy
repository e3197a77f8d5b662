/** The optional value used wherever a field of the source may be absent (`undefined`). */
module Wrappers {

  datatype Option<+T> = None | Some(value: T) {

    /** Returns the value held in Some, or `default` when None. */
    function GetOr(default: T): T {
      match this
      case Some(v) => v
      case None => default
    }
  }

  /**
   * JavaScript truthiness of an optional string: `undefined` and the empty
   * string are falsy, every other string is truthy.
   */
  predicate Truthy(s: Option<string>) {
    s.Some? && s.value != ""
  }
}
