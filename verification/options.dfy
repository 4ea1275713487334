/** Swift optionals (`T?`) and the `??` default operator. */
module Options {

  datatype Option<+T> = None | Some(value: T) {

    /** `self ?? default`: the wrapped value, or the default when absent. */
    function GetOr(default: T): T {
      match this
      case Some(v) => v
      case None => default
    }
  }
}
