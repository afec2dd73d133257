/** Types shared by every component. */
module Basics {
  newtype byte = x: int | 0 <= x < 0x100
  newtype uint32 = x: int | 0 <= x < 0x1_0000_0000
  newtype uint64 = x: int | 0 <= x < 0x1_0000_0000_0000_0000

  datatype Option<+T> = None | Some(value: T)

  /** What `InterlockedDecrement` leaves behind: a 32-bit word wraps around at zero. */
  function Decrement(n: uint32): uint32 {
    if n == 0 then 0xFFFF_FFFF else n - 1
  }

  /** 0 or 1, for counting. */
  function Ind(b: bool): nat {
    if b then 1 else 0
  }

  /** A stretch of memory; what lies beyond the buffer is not data. */
  function Stretch(buf: seq<byte>, offset: nat, length: nat): seq<byte> {
    if offset + length <= |buf| then buf[offset..offset + length] else []
  }
}
