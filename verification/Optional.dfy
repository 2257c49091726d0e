/** A value that may be absent: the source's `undefined`. */
module Optional {

  datatype Option<+T> = None | Some(value: T) {
    /** The source's `??`. */
    function GetOr(default: T): T {
      match this
      case None => default
      case Some(v) => v
    }
  }
}
