/** Optional values: a snippet a descriptor may lack, a settings file that may be absent,
    a yes/no reply that may be left empty. */
module Wrappers {

  datatype Option<+T> = None | Some(value: T) {

    /** The value held, or `default` when there is none. */
    function GetOr(default: T): T {
      match this
      case Some(v) => v
      case None => default
    }
  }
}
