// Fixed-width integers of the C++ sources, and the two small result types used throughout.
module Bytes {
  // uint8_t and uint32_t. Arithmetic on them is done in int, as C++ promotes it; storing
  // the result back is only allowed through Wrap or with a proof that it fits.
  type u8 = n: int | 0 <= n < 0x100
  type u32 = n: int | 0 <= n < 0x1_0000_0000

  // Conversion of a promoted result back to uint8_t.
  function Wrap(n: int): u8 {
    n % 0x100
  }

  // Conversion of a promoted result back to uint32_t.
  function Wrap32(n: int): u32 {
    n % 0x1_0000_0000
  }

  // static_cast<uint8_t>(-1)
  const MINUS_ONE: u8 := Wrap(-1)

  datatype Option<+T> = None | Some(value: T)

  // A value, or the std::out_of_range the C++ function throws instead.
  datatype Checked<+T> = Ok(value: T) | OutOfRange
}
