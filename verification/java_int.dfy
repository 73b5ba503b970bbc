/** Java integer semantics that differ from Dafny's unbounded, Euclidean integers. */
module JavaInt {
  /** A Java `byte`. */
  type SByte = b: int | -128 <= b < 128

  /** `(byte) i`: the low eight bits of `i`, read as a signed byte. */
  function ToByte(i: int): (r: SByte)
    ensures (r - i) % 256 == 0
    ensures -128 <= i < 128 ==> r == i
  {
    var low := i % 256;
    if low < 128 then low else low - 256
  }

  /** Java's `/` on `int`: the quotient rounded towards zero. */
  function JavaDiv(a: int, b: int): (q: int)
    requires b > 0
    ensures a >= 0 ==> q == a / b
    ensures a < 0 ==> q == -((-a) / b)
    ensures q * b <= a < q * b + b || q * b - b < a <= q * b
  {
    if a >= 0 then a / b else -((-a) / b)
  }

  /** A non-zero multiple of a positive `m` is at least `m` away from zero. */
  lemma MulAtLeast(x: int, m: int)
    requires m > 0
    ensures x >= 1 ==> x * m >= m
    ensures x <= -1 ==> x * m <= -m
  {
    if x >= 1 {
      assert (x - 1) * m >= 0;
    } else if x <= -1 {
      assert (-x - 1) * m >= 0;
    }
  }
}
