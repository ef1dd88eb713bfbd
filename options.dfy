/** The usual optional-value datatype: `None` stands for JavaScript's
    `undefined`/`null`/`NaN` wherever the source tests for "no value". */
module Options {

  datatype Option<+T> = None | Some(value: T) {

    /** The wrapped value, or `default` when there is none. */
    function GetOr(default: T): T {
      match this
      case Some(v) => v
      case None => default
    }
  }
}
