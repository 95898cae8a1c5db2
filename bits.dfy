/** Fixed-width machine integers and the failure wrapper shared by every
    component. Unsigned Rust integers are modelled as bit-vectors, so their
    arithmetic wraps exactly as `wrapping_add`/`wrapping_sub` do; a narrowing
    `as u8` of the source is written as a mask followed by a conversion. */
module Bits {

  type u8 = bv8
  type u16 = bv16
  type u32 = bv32
  type u64 = bv64

  /** A 16-bit address or counter used to index memory. Kept as a bounded
      integer so that indexing needs no bit-vector conversion; wrap-around
      is written out with `Wrap16`. */
  type Addr = x: int | 0 <= x < 0x10000

  /** Wrapping 16-bit arithmetic on addresses. */
  function Wrap16(x: int): (r: Addr)
    ensures 0 <= x < 0x10000 ==> r == x
    ensures x == -1 ==> r == 0xFFFF
    ensures x == 0x10000 ==> r == 0
  {
    x % 0x10000
  }

  datatype Option<+T> = None | Some(value: T)

  /** The outcome of an operation that the source aborts with a panic
      (`panic!`, `unreachable!`, `assert!`, an out-of-bounds index) on some
      of its inputs. */
  datatype Result<+T> = Ok(value: T) | Panic

  /** The low byte of a 16-bit value (`v as u8`). */
  function LowByte(v: u16): (b: u8)
    ensures b as u16 == v & 0xFF
  {
    (v & 0xFF) as u8
  }

  /** The high byte of a 16-bit value (`(v >> 8) as u8`). */
  function HighByte(v: u16): (b: u8)
    ensures b as u16 == v >> 8
  {
    (v >> 8) as u8
  }
}
