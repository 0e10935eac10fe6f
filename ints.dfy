/** Fixed-width unsigned integers of the Rust source, and the `as u8` cast. */
module Ints {

  newtype byte = x: int | 0 <= x < 0x100
  newtype u16 = x: int | 0 <= x < 0x1_0000
  newtype u32 = x: int | 0 <= x < 0x1_0000_0000

  /** Rust's `x as u8` on an integer of any width keeps its low eight bits
      (two's complement for negative values), which is Dafny's Euclidean
      remainder by 256. */
  function AsU8(x: int): (b: byte)
    ensures 0 <= x < 0x100 ==> b as int == x
    ensures (x - b as int) % 0x100 == 0
  {
    (x % 0x100) as byte
  }
}
