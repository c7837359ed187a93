/** A present-or-absent value, shared by both components: an absent cache
    entry, an absent store record, a response that never arrives. */
module Wrappers {

  datatype Option<+T> = None | Some(value: T) {

    /** The carried value, or `default` when absent. */
    function GetOr(default: T): T {
      match this
      case Some(v) => v
      case None => default
    }
  }
}
