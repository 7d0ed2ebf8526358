/** Small shared vocabulary: an optional value, standing for the `null`
    and `undefined` the components store in their state. */
module Common {

  datatype Option<+T> = None | Some(value: T) {
    function GetOr(default: T): T {
      match this
      case Some(v) => v
      case None => default
    }
  }
}
