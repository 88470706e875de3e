/** C#'s `null`: every reference the source checks for presence is an `Option`. */
module Options {

  datatype Option<+T> = None | Some(value: T) {

    /** The value, or `default` for `null` (C#'s `??`). */
    function GetOr(default: T): T {
      match this
      case Some(v) => v
      case None => default
    }
  }
}
