/** The optional value used wherever the source reads something that may be absent
    (`undefined` or `null` in JavaScript). */
module Wrappers {

  datatype Option<+T> = None | Some(value: T) {

    /** The value if present, otherwise `default`: the `x || default` and `x ? x : default`
        idioms for values that are truthy whenever they are present. */
    function GetOr(default: T): T {
      match this
      case Some(v) => v
      case None => default
    }
  }
}
