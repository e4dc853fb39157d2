/** The few value types of Rust's standard library that the model needs:
    `Option`, `Result`, and the fixed-width integer ranges the Win32 API uses. */
module Prelude {

  /** Rust's `u32`. */
  type u32 = x: int | 0 <= x < 0x1_0000_0000

  /** Rust's `i32`. */
  type i32 = x: int | -0x8000_0000 <= x < 0x8000_0000

  const I32_MAX: int := 0x7FFF_FFFF

  datatype Option<T> = None | Some(value: T) {
    /** `Option::unwrap_or(default)` */
    function UnwrapOr(default: T): T {
      match this
      case Some(v) => v
      case None => default
    }
  }

  /** `std::result::Result<T, E>` */
  datatype Result<T, E> = Ok(value: T) | Err(error: E)
}
