/** Fixed-width unsigned integers of the Rust source, as subset types of int. */
module MachineInts {
  type u8 = x: int | 0 <= x < 0x100
  type u16 = x: int | 0 <= x < 0x1_0000
  type u32 = x: int | 0 <= x < 0x1_0000_0000

  /** Rust's `a + b` on two u16 values in a build without overflow checks:
      the sum is taken modulo 2^16 (a build with overflow checks panics instead). */
  function WrappingAddU16(a: u16, b: u16): (r: u16)
    ensures a + b < 0x1_0000 ==> r == a + b
    ensures a + b >= 0x1_0000 ==> r == a + b - 0x1_0000
  {
    (a + b) % 0x1_0000
  }
}
