/** Shared building blocks: optional values, results with an error, and the
    fixed-width integer types of the C++ fields. */
module Common {

  datatype Option<+T> = None | Some(value: T) {
    /** The held value, or `current` when there is none. */
    function GetOr(current: T): T {
      match this
      case Some(v) => v
      case None => current
    }
  }

  datatype Result<+T, +E> = Success(value: T) | Failure(error: E)

  /** uint16_t */
  type uint16 = x: int | 0 <= x < 0x1_0000
  /** unsigned / uint32_t */
  type uint32 = x: int | 0 <= x < 0x1_0000_0000
  /** int64_t */
  type int64 = x: int | -0x8000_0000_0000_0000 <= x < 0x8000_0000_0000_0000
}
