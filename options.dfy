/** The optional value used for host data that may be absent (a plugin that is not loaded,
    a record field that was never written, a latency that cannot be rounded). */
module Options {

  datatype Option<+T> = None | Some(value: T) {

    /** The value held, or `default` when there is none. */
    function GetOr(default: T): T
    {
      match this
      case Some(v) => v
      case None => default
    }
  }
}
