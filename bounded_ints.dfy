/** Rust's unsigned machine integers, as ranges of the unbounded `int`. */
module BoundedInts {

  type uint16 = x: int | 0 <= x < 0x1_0000

  type uint32 = x: int | 0 <= x < 0x1_0000_0000

  type uint64 = x: int | 0 <= x < 0x1_0000_0000_0000_0000
}
