/** Machine integers and the optional value shared by all modules. */
module Basics {

  const TWO64: int := 0x1_0000_0000_0000_0000

  type U64 = x: int | 0 <= x < 0x1_0000_0000_0000_0000

  datatype Option<+T> = None | Some(value: T)

  /** The uint64 value of an integer: what Go's wrapping +, - and ++ leave. */
  function Wrap(x: int): (r: U64)
    ensures 0 <= x < TWO64 ==> r == x
    ensures -TWO64 <= x < 0 ==> r == x + TWO64
  {
    x % 0x1_0000_0000_0000_0000
  }

  function Max(a: int, b: int): int {
    if a < b then b else a
  }
}
