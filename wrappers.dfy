/** The optional value used wherever the dashboard's records have optional
    fields, or a handler receives a `Partial<T>` whose keys may be absent. */
module Wrappers {

  datatype Option<+T> = None | Some(value: T) {

    /** The value, or `default` when absent. */
    function GetOr(default: T): T {
      match this
      case Some(v) => v
      case None => default
    }
  }
}
