/** Fixed-width integers and Option, as the Rust source uses them. */
module Prelude {

  /** `u8`: one octet of a request or response body. */
  newtype byte = x: int | 0 <= x < 0x100

  /** `u16`: the width of an HTTP status code in the service's error envelope. */
  newtype u16 = x: int | 0 <= x < 0x1_0000

  /** `u32`: the width of an epoch number. */
  newtype u32 = x: int | 0 <= x < 0x1_0000_0000

  /** `usize` on a 64-bit target: the width of a page size. */
  newtype usize = x: int | 0 <= x < 0x1_0000_0000_0000_0000

  datatype Option<T> = None | Some(value: T)
}
