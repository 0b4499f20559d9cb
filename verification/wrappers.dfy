/** Optional values, for dictionary keys that may be missing. */
module Wrappers {

  /** Either no value or exactly one. */
  datatype Option<+T> = None | Some(value: T) {

    /** Reads a possibly-missing key: the stored value, or `default` when it is missing. */
    function GetOr(default: T): T {
      if Some? then value else default
    }
  }
}
