/** The optional value used for the cover's fields, which start out unknown (Python `None`). */
module Options {

  datatype Option<+T> = None | Some(value: T) {

    /**
     * The carried value, or `default` when there is none. With default 0 this
     * agrees with `self._position or 0` at cover.py:181, which also maps 0 to 0.
     */
    function GetOr(default: T): T {
      match this
      case Some(v) => v
      case None => default
    }
  }
}
