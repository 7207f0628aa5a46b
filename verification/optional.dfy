/** An optional value: the model's stand-in for `T | null` and `T | undefined`
    where the distinction does not matter. */
module Optional {

  datatype Option<+T> = None | Some(value: T) {

    /** Returns the value held, or `default` when there is none. */
    function GetOr(default: T): T {
      match this
      case Some(v) => v
      case None => default
    }
  }
}
