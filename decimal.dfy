/** Fixed-point conversions between on-chain integers with 18 (wad), 27 (ray) or
    45 (rad) implied decimal places and exact decimals. BigInt is `int`, BigDecimal
    is `real`. */
module Decimal {

  const ONE: real := 1.0
  const ZERO: real := 0.0

  const WadPrecision: nat := 18
  const RayPrecision: nat := 27
  const RadPrecision: nat := 45

  function Pow10(n: nat): nat {
    if n == 0 then 1 else 10 * Pow10(n - 1)
  }

  lemma {:induction false} Pow10Positive(n: nat)
    ensures Pow10(n) >= 1
  {
    if n > 0 {
      Pow10Positive(n - 1);
    }
  }

  /** The integer scale factors `wadBigInt`, `rayBigInt`, `radBigInt`. */
  const WadInt: nat := Pow10(WadPrecision)
  const RayInt: nat := Pow10(RayPrecision)
  const RadInt: nat := Pow10(RadPrecision)

  lemma {:induction false} Pow10Add(a: nat, b: nat)
    ensures Pow10(a + b) == Pow10(a) * Pow10(b)
  {
    if a > 0 {
      Pow10Add(a - 1, b);
    }
  }

  lemma ScaleConstants()
    ensures WadInt == 1_000_000_000_000_000_000
    ensures RayInt == 1_000_000_000_000_000_000_000_000_000
    ensures RadInt == 1_000_000_000_000_000_000_000_000_000_000_000_000_000_000_000
  {
    assert Pow10(9) == 1_000_000_000;
    Pow10Add(9, 9);
    Pow10Add(18, 9);
    Pow10Add(27, 18);
  }

  /** `value.divDecimal(10^p)`: the integer read as a decimal with p fractional digits. */
  function Unscale(value: int, p: nat): (r: real)
    ensures r * Pow10(p) as real == value as real
  {
    Pow10Positive(p);
    value as real / Pow10(p) as real
  }

  /** `truncate(0)`: drop the fractional digits, rounding toward zero. */
  function Truncate(x: real): (r: int)
    ensures 0.0 <= x ==> 0 <= r && r as real <= x < r as real + 1.0
    ensures x < 0.0 ==> r <= 0 && r as real - 1.0 < x <= r as real
  {
    if x >= 0.0 then x.Floor else -((-x).Floor)
  }

  lemma TruncateIntegral(k: int)
    ensures Truncate(k as real) == k
  {
    assert -(k as real) == (-k) as real;
  }

  /** `value.times(10^p).truncate(0).digits`. */
  function Rescale(value: real, p: nat): (r: int)
    ensures 0.0 <= value ==> 0 <= r && r as real <= value * Pow10(p) as real < r as real + 1.0
    ensures value < 0.0 ==> r <= 0 && r as real - 1.0 < value * Pow10(p) as real <= r as real
  {
    Pow10Positive(p);
    Truncate(value * Pow10(p) as real)
  }

  /** `fromWad`, `fromRay`, `fromRad`: the decimal an on-chain integer with 18, 27
      or 45 implied decimal places stands for. */
  function FromWad(value: int): (r: real)
    ensures r * WadInt as real == value as real
  {
    Unscale(value, WadPrecision)
  }

  function FromRay(value: int): (r: real)
    ensures r * RayInt as real == value as real
  {
    Unscale(value, RayPrecision)
  }

  function FromRad(value: int): (r: real)
    ensures r * RadInt as real == value as real
  {
    Unscale(value, RadPrecision)
  }

  /** `toWad`, `toRay`, `toRad`: the decimal scaled up to an on-chain integer,
      dropping the digits beyond the scale, rounding toward zero. */
  function ToWad(value: real): (r: int)
    ensures 0.0 <= value ==> 0 <= r && r as real <= value * WadInt as real < r as real + 1.0
    ensures value < 0.0 ==> r <= 0 && r as real - 1.0 < value * WadInt as real <= r as real
  {
    Rescale(value, WadPrecision)
  }

  function ToRay(value: real): (r: int)
    ensures 0.0 <= value ==> 0 <= r && r as real <= value * RayInt as real < r as real + 1.0
    ensures value < 0.0 ==> r <= 0 && r as real - 1.0 < value * RayInt as real <= r as real
  {
    Rescale(value, RayPrecision)
  }

  function ToRad(value: real): (r: int)
    ensures 0.0 <= value ==> 0 <= r && r as real <= value * RadInt as real < r as real + 1.0
    ensures value < 0.0 ==> r <= 0 && r as real - 1.0 < value * RadInt as real <= r as real
  {
    Rescale(value, RadPrecision)
  }

  /** Unscaling divides by exactly 10^18, 10^27 and 10^45. */
  lemma FromScaledValues(v: int)
    ensures FromWad(v) == v as real / 1_000_000_000_000_000_000.0
    ensures FromRay(v) == v as real / 1_000_000_000_000_000_000_000_000_000.0
    ensures FromRad(v) == v as real / 1_000_000_000_000_000_000_000_000_000_000_000_000_000_000_000.0
  {
    ScaleConstants();
  }

  /** Rescaling an unscaled integer gives the integer back, for any scale. */
  lemma RescaleUnscale(n: int, p: nat)
    ensures Rescale(Unscale(n, p), p) == n
  {
    assert Unscale(n, p) * Pow10(p) as real == n as real;
  }

  lemma ToFromRoundTrips(n: int)
    ensures ToWad(FromWad(n)) == n
    ensures ToRay(FromRay(n)) == n
    ensures ToRad(FromRad(n)) == n
  {
    RescaleUnscale(n, WadPrecision);
    RescaleUnscale(n, RayPrecision);
    RescaleUnscale(n, RadPrecision);
  }

  /** x has at most p fractional decimal digits. */
  predicate FitsDigits(x: real, p: nat) {
    var y := x * (Pow10(p) as real);
    y.Floor as real == y
  }

  /** A decimal with at most p fractional digits survives rescaling and unscaling. */
  lemma UnscaleRescale(x: real, p: nat)
    requires FitsDigits(x, p)
    ensures Unscale(Rescale(x, p), p) == x
  {
    Pow10Positive(p);
    var w := Pow10(p) as real;
    var n := Rescale(x, p);
    var k := (x * w).Floor;
    assert x * w == k as real;
    TruncateIntegral(k);
    assert n == k;
    DivideBack(x, w, n);
  }

  lemma DivideBack(x: real, w: real, n: int)
    requires w > 0.0 && x * w == n as real
    ensures n as real / w == x
  {
  }

  lemma FromToWadRoundTrip(x: real)
    requires FitsDigits(x, WadPrecision)
    ensures FromWad(ToWad(x)) == x
  {
    UnscaleRescale(x, WadPrecision);
  }

  lemma UnscaleOne(p: nat)
    ensures Unscale(Pow10(p), p) == 1.0
    ensures Unscale(0, p) == 0.0
  {
    Pow10Positive(p);
    DivideSelf(Pow10(p) as real);
  }

  lemma DivideSelf(w: real)
    requires w > 0.0
    ensures w / w == 1.0 && 0.0 / w == 0.0
  {
  }

  lemma FromWadConstants()
    ensures FromWad(WadInt) == ONE
    ensures FromWad(0) == ZERO
  {
    UnscaleOne(WadPrecision);
  }

  /** A wad amount is zero as a decimal exactly when it is zero as an integer. */
  lemma FromWadZero(v: int)
    ensures FromWad(v) == ZERO <==> v == 0
  {
    FromWadConstants();
    if FromWad(v) == ZERO {
      assert FromWad(v) * Pow10(WadPrecision) as real == v as real;
    }
  }

  /** Unscaling is additive, so sums of wad amounts can be taken on either side. */
  lemma UnscaleAdditive(a: int, b: int, p: nat)
    ensures Unscale(a + b, p) == Unscale(a, p) + Unscale(b, p)
    ensures Unscale(-a, p) == -Unscale(a, p)
  {
    Pow10Positive(p);
    var w := Pow10(p) as real;
    var x, y := Unscale(a, p), Unscale(b, p);
    assert (x + y) * w == x * w + y * w == (a + b) as real;
    Cancel(Unscale(a + b, p), x + y, w);
    assert (-x) * w == -(x * w) == (-a) as real;
    Cancel(Unscale(-a, p), -x, w);
  }

  /** Multiplication by a positive scale is injective. */
  lemma Cancel(x: real, y: real, w: real)
    requires w > 0.0 && x * w == y * w
    ensures x == y
  {
  }
}
