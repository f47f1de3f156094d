/** Machine integers and small types shared by every module. */
module Base {

  /** A Rust u64. */
  type U64 = x: int | 0 <= x < 0x1_0000_0000_0000_0000

  const TWO_TO_THE_64: int := 0x1_0000_0000_0000_0000
  const U64_MAX: U64 := 0xFFFF_FFFF_FFFF_FFFF

  /** u64 addition as a release build computes it: overflow wraps around. */
  function WrappingAdd(a: U64, b: U64): U64 {
    (a + b) % TWO_TO_THE_64
  }

  function Max(a: U64, b: U64): U64 {
    if a < b then b else a
  }

  datatype Option<+T> = None | Some(value: T)
}
