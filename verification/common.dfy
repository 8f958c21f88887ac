/** Optional values and results shared by every module of the model. */
module Common {

  /** A value that may be absent (`null`, `undefined` or Python's `None`). */
  datatype Option<+T> = None | Some(value: T) {
    function GetOr(default: T): T {
      match this
      case Some(v) => v
      case None => default
    }
  }

  /** The outcome of a Python call that either returns or raises. */
  datatype Result<+T> = Ok(value: T) | Raised(message: string)

  /** The tones the pages paint their status text and badges with. */
  datatype Tone = Red | Yellow | Green | Blue | Orange | Gray
}
