/** Small value wrappers shared by the whole model. */
module Base {

  /** Python's `None` versus a present value. */
  datatype Option<+T> = None | Some(value: T)

  /** Whether a key is present in a sparse mapping (a present key may still hold `None`). */
  datatype Slot<+T> = Absent | Present(value: T) {
    /** `dict.get(key, default)` */
    function GetOr(default: T): T {
      if Present? then value else default
    }
  }

  /** A normal result or a raised exception. */
  datatype Result<+R, +E> = Success(value: R) | Failure(error: E)
}
