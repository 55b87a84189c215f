/** The usual optional value, used for lookups and parsers that may find nothing. */
module Optional {
  datatype Option<+T> = None | Some(value: T) {
    /** The value, or `default` when there is none (Swift's `??`). */
    function GetOr(default: T): T {
      match this
      case Some(v) => v
      case None => default
    }
  }
}
