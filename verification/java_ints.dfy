/** Java's fixed-width integers, written out over Dafny's unbounded `int`. */
module JavaInts {

  const INT_MIN: int := -0x8000_0000
  const INT_MAX: int := 0x7fff_ffff
  const LONG_MIN: int := -0x8000_0000_0000_0000
  const LONG_MAX: int := 0x7fff_ffff_ffff_ffff

  predicate IsInt(x: int) {
    INT_MIN <= x <= INT_MAX
  }

  /** A Java `int`. */
  type Int32 = x: int | INT_MIN <= x <= INT_MAX

  /** A Java `long`. */
  type Int64 = x: int | LONG_MIN <= x <= LONG_MAX

  /** The value a Java `int` expression (or an `(int)` cast) yields for the exact result `x`:
      two's-complement wrap-around modulo 2^32. */
  function WrapInt(x: int): (r: Int32)
    ensures (r - x) % 0x1_0000_0000 == 0
    ensures IsInt(x) ==> r == x
  {
    (x - INT_MIN) % 0x1_0000_0000 + INT_MIN
  }

  /** Java `x + y` on `int`s. */
  function IntAdd(x: Int32, y: Int32): (r: Int32)
    ensures IsInt(x as int + y as int) ==> r == x as int + y as int
  {
    WrapInt(x as int + y as int)
  }

  /** Java `x * y` on `int`s. */
  function IntMul(x: Int32, y: Int32): (r: Int32)
    ensures IsInt(x as int * y as int) ==> r == x as int * y as int
  {
    WrapInt(x as int * y as int)
  }
}
