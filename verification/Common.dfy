/** Optional values, small arithmetic and the machine's integer conversions. */
module Common {

  datatype Option<T> = None | Some(value: T)

  function Max(a: int, b: int): int {
    if a < b then b else a
  }

  function Min(a: int, b: int): int {
    if a < b then a else b
  }

  function Pow2(n: nat): nat {
    if n == 0 then 1 else 2 * Pow2(n - 1)
  }

  const TWO_31 := 0x8000_0000
  const TWO_32 := 0x1_0000_0000
  const TWO_63 := 0x8000_0000_0000_0000
  const TWO_64 := 0x1_0000_0000_0000_0000

  /** Conversion to a signed 32-bit integer. */
  function ToInt32(n: int): int {
    (n + TWO_31) % TWO_32 - TWO_31
  }

  /** The signed 64-bit result of an operation whose exact result is `n`. */
  function Wrap64(n: int): int {
    (n + TWO_63) % TWO_64 - TWO_63
  }

  lemma Int32Identity(n: int)
    requires 0 <= n < TWO_31
    ensures ToInt32(n) == n
  {
  }

  lemma Int32Range(n: int)
    ensures -TWO_31 <= ToInt32(n) < TWO_31
  {
  }

  /** Wrapping to 64 bits first does not change the low 32 bits. */
  lemma Int32OfWrap64(n: int)
    ensures ToInt32(Wrap64(n)) == ToInt32(n)
  {
    var k := (n + TWO_63) / TWO_64;
    assert Wrap64(n) == n - k * TWO_64;
    assert (n + TWO_31 - (k * TWO_32) * TWO_32) % TWO_32 == (n + TWO_31) % TWO_32;
  }

  lemma Wrap64Exact(n: int)
    ensures -TWO_63 <= Wrap64(n) < TWO_63
    ensures -TWO_63 <= n < TWO_63 ==> Wrap64(n) == n
  {
  }

  lemma {:induction false} Pow2Grows(a: nat, b: nat)
    requires a <= b
    ensures 1 <= Pow2(a) <= Pow2(b)
    decreases b
  {
    if a < b { Pow2Grows(a, b - 1); } else if a > 0 { Pow2Grows(a - 1, b - 1); }
  }

  lemma ProductGrows(b: int, p: int, q: int)
    requires b >= 1 && 1 <= p <= q
    ensures 1 <= b * p <= b * q
  {
    assert b * (q - p) >= 0;
    assert b * (p - 1) >= 0;
  }

  function Count(b: bool): nat {
    if b then 1 else 0
  }
}
