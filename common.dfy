/** Small helper types shared by the modules of the model. */
module Common {

  /** Python's `None` or a present value. */
  datatype Option<+T> = None | Some(value: T) {
    function GetOr(default: T): T {
      match this
      case Some(v) => v
      case None => default
    }
  }

  /** One byte of a `bytes` value. */
  newtype Byte = x: int | 0 <= x < 256

  /** An opaque point in time: `datetime.now()` becomes a parameter of this type. */
  type Timestamp = int

  /** Python's truthiness of an `Optional[str]`: present and non-empty. */
  predicate Truthy(s: Option<string>) {
    s.Some? && s.value != ""
  }
}
