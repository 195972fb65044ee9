/** The optional value a lookup produces: `undefined`/`null` in the store become `None`. */
module Options {

  datatype Option<+T> = None | Some(value: T) {

    /** `x ?? default`: the value, or `default` when there is none. */
    function GetOr(default: T): T {
      match this
      case Some(v) => v
      case None => default
    }
  }
}
