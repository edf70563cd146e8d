/** Optional values: the model's rendering of Rust's `Option` and of nullable native pointers. */
module Wrappers {

  datatype Option<+T> = None | Some(value: T)
}

/** Fixed-width integers of the native interfaces, with their wrap-around written out. */
module NativeInts {

  type u8 = x: int | 0 <= x < 0x100
  type u32 = x: int | 0 <= x < 0x1_0000_0000
  type i32 = x: int | -0x8000_0000 <= x < 0x8000_0000

  /** Two's-complement wrap of an integer into `i32`: what a release build's `i32` subtraction yields. */
  function WrapI32(x: int): (r: i32)
    ensures (r - x) % 0x1_0000_0000 == 0
    ensures -0x8000_0000 <= x < 0x8000_0000 ==> r == x
  {
    var m := (x + 0x8000_0000) % 0x1_0000_0000;
    m - 0x8000_0000
  }

  /** The low 32 bits of an integer, read as unsigned: Rust's `as u32` on a wider signed value. */
  function LowU32(x: int): (r: u32)
    ensures (r - x) % 0x1_0000_0000 == 0
    ensures 0 <= x < 0x1_0000_0000 ==> r == x
  {
    x % 0x1_0000_0000
  }
}
