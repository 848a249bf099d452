/** The C++ integer conversions the bridge relies on, written out over
    Dafny's unbounded integers. */
module Numerics {

  const TwoTo31: int := 0x8000_0000
  const TwoTo32: int := 0x1_0000_0000

  /** A value of the host's 32-bit `int`. */
  type Int32 = x: int | -TwoTo31 <= x < TwoTo31

  /** `(int)v` for an integer `v` of any width: two's-complement wrap-around
      to 32 bits. */
  function ToInt32(v: int): (r: Int32)
    ensures (r - v) % TwoTo32 == 0
    ensures -TwoTo31 <= v < TwoTo31 ==> r == v
  {
    var m := (v + TwoTo31) % TwoTo32;
    m - TwoTo31
  }

  /** `(int)f` for a floating-point `f`: truncation toward zero. */
  function Trunc(f: real): (r: int)
    ensures 0.0 <= f ==> r as real <= f < r as real + 1.0
    ensures f < 0.0 ==> r as real - 1.0 < f <= r as real
  {
    if f >= 0.0 then f.Floor else -((-f).Floor)
  }
}
