/**
 * Hand-written Win32 helpers: HRESULT tests and the word extractors used to
 * decode window-message parameters.
 */
module ManualDefinitions {

  const TWO_16: int := 0x1_0000
  const TWO_32: int := 0x1_0000_0000
  const TWO_64: int := 0x1_0000_0000_0000_0000

  /** A COM status code: a signed 32-bit integer. */
  newtype HRESULT = x: int | -0x8000_0000 <= x < 0x8000_0000

  /** A pointer-sized signed integer (64-bit process). */
  newtype nint = x: int | -0x8000_0000_0000_0000 <= x < 0x8000_0000_0000_0000

  /** An unsigned 16-bit integer. */
  newtype ushort = x: int | 0 <= x < 0x1_0000

  /** The unchecked cast `(nuint)l`: two's-complement reinterpretation of `l`. */
  function AsUnsigned(l: nint): (u: int)
    ensures 0 <= u < TWO_64
    ensures (u - l as int) % TWO_64 == 0
  {
    if l < 0 then l as int + TWO_64 else l as int
  }

  predicate SUCCEEDED(hr: HRESULT)
  {
    hr >= 0
  }

  predicate FAILED(hr: HRESULT)
  {
    hr < 0
  }

  /** Every status code is exactly one of success and failure. */
  lemma FailedIsNotSucceeded(hr: HRESULT)
    ensures FAILED(hr) <==> !SUCCEEDED(hr)
    ensures SUCCEEDED(hr) <==> hr as int >= 0
  {
  }

  /** The low word: the unsigned value masked with 0xFFFF. */
  function LOWORD(l: nint): (w: ushort)
    ensures w as int == l as int % TWO_16
  {
    LowWordOfUnsigned(l);
    (AsUnsigned(l) % TWO_16) as ushort
  }

  /** The high word: the unsigned value shifted right by 16, masked with 0xFFFF. */
  function HIWORD(l: nint): (w: ushort)
    ensures w as int == l as int % TWO_32 / TWO_16
  {
    HighWordOfUnsigned(l);
    (AsUnsigned(l) / TWO_16 % TWO_16) as ushort
  }

  lemma LowWordOfUnsigned(l: nint)
    ensures AsUnsigned(l) % TWO_16 == l as int % TWO_16
  {
    if l < 0 {
      var u := l as int + TWO_64;
      assert u == l as int + TWO_16 * 0x1_0000_0000_0000;
      ModAddMultiple(l as int, 0x1_0000_0000_0000, TWO_16);
    }
  }

  lemma HighWordOfUnsigned(l: nint)
    ensures AsUnsigned(l) / TWO_16 % TWO_16 == l as int % TWO_32 / TWO_16
  {
    var u := AsUnsigned(l);
    // u and l agree modulo 2^32, since 2^64 is a multiple of 2^32
    ModAddMultiple(l as int, if l < 0 then 0x1_0000_0000 else 0, TWO_32);
    assert u % TWO_32 == l as int % TWO_32;
    // and (u / 2^16) % 2^16 == (u % 2^32) / 2^16
    var q := u / TWO_32;
    var r := u % TWO_32;
    assert u == q * TWO_32 + r;
    assert u == (q * TWO_16 + r / TWO_16) * TWO_16 + r % TWO_16;
    DivOfSum(q * TWO_16 + r / TWO_16, r % TWO_16, TWO_16);
    assert u / TWO_16 == q * TWO_16 + r / TWO_16;
    ModAddMultiple(r / TWO_16, q, TWO_16);
  }

  lemma ModAddMultiple(a: int, k: int, m: int)
    requires m > 0
    ensures (a + k * m) % m == a % m
  {
    var q := a / m;
    var r := a % m;
    assert a + k * m == (q + k) * m + r;
    DivOfSum(q + k, r, m);
  }

  lemma DivOfSum(q: int, r: int, m: int)
    requires m > 0 && 0 <= r < m
    ensures (q * m + r) / m == q && (q * m + r) % m == r
  {
    var a := q * m + r;
    var d := a / m - q;
    assert d * m == r - a % m by {
      assert a == (a / m) * m + a % m;
      assert (a / m) * m == q * m + d * m;
    }
    if d >= 1 {
      MulMonotone(d, m);
    } else if d <= -1 {
      MulMonotone(-d, m);
    }
  }

  lemma MulMonotone(d: int, m: int)
    requires d >= 1 && m > 0
    ensures d * m >= m
  {
    assert d * m == (d - 1) * m + m;
  }

  /** For a 32-bit value, the two words put back together give the value. */
  lemma WordsRecompose(l: nint)
    requires 0 <= l as int < TWO_32
    ensures HIWORD(l) as int * TWO_16 + LOWORD(l) as int == l as int
  {
    assert l as int % TWO_32 == l as int;
  }
}
