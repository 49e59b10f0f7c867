/**
 * Currencies and the conversion between major units (a float such as
 * 12.34 dollars) and minor units (an integer count such as 1234 cents),
 * internal/entities/shared.go. Floats are modelled as exact reals.
 */
module Money {

  type Currency = string

  const NULL: Currency := ""
  const UZS: Currency := "UZS"
  const RUB: Currency := "RUB"
  const USD: Currency := "USD"
  const EUR: Currency := "EUR"
  const JPY: Currency := "JPY"
  const KWD: Currency := "KWD"

  const CurrencyScales: map<Currency, nat> :=
    map[RUB := 2, USD := 2, EUR := 2, JPY := 0, KWD := 3, UZS := 2]

  /** Number of minor-unit digits: the table's entry, or 2 for any other code. */
  function Scale(c: Currency): (r: nat)
    ensures c in CurrencyScales ==> r == CurrencyScales[c]
    ensures c !in CurrencyScales ==> r == 2
  {
    if c in CurrencyScales then CurrencyScales[c] else 2
  }

  /** The table gives 2 to RUB, USD, EUR and UZS, 0 to JPY and 3 to KWD; every scale is at most 3. */
  lemma ScaleTable(c: Currency)
    ensures Scale(c) <= 3
    ensures Scale(RUB) == 2 && Scale(USD) == 2 && Scale(EUR) == 2 && Scale(UZS) == 2
    ensures Scale(JPY) == 0 && Scale(KWD) == 3 && Scale(NULL) == 2
  {
  }

  function Pow10(n: nat): (r: real)
    ensures r >= 1.0
  {
    if n == 0 then 1.0 else 10.0 * Pow10(n - 1)
  }

  /**
   * `major * math.Pow10(scale)`, written as `scale` multiplications by ten
   * so that it stays linear arithmetic; `ScaledIsProduct` ties it to the product.
   */
  function Scaled(major: real, scale: nat): real {
    if scale == 0 then major else 10.0 * Scaled(major, scale - 1)
  }

  lemma {:induction false} ScaledIsProduct(major: real, scale: nat)
    ensures Scaled(major, scale) == major * Pow10(scale)
  {
    if scale > 0 {
      ScaledIsProduct(major, scale - 1);
      assert 10.0 * (major * Pow10(scale - 1)) == major * (10.0 * Pow10(scale - 1));
    }
  }

  /** `math.Round`: to the nearest integer, halves away from zero. */
  function Round(x: real): (r: int)
    ensures -0.5 <= r as real - x <= 0.5
    ensures x >= 0.0 ==> r >= 0
    ensures x <= 0.0 ==> r <= 0
  {
    if x >= 0.0 then (x + 0.5).Floor else -((-x + 0.5).Floor)
  }

  /**
   * Go's conversion of an out-of-range float to `int64` is left to the
   * platform; on amd64 it yields the smallest `int64`, which is what is
   * modelled here.
   */
  function ToInt64(x: int): (r: int)
    ensures InInt64(r)
    ensures InInt64(x) ==> r == x
  {
    if InInt64(x) then x else Int64Min
  }

  /** `MinorFromMajor`: the major amount scaled by 10^scale, rounded, as an `int64`. */
  function MinorFromMajor(major: real, scale: nat): (r: int)
    ensures InInt64(r)
    ensures InInt64(Round(Scaled(major, scale))) ==> -0.5 <= r as real - Scaled(major, scale) <= 0.5
  {
    ToInt64(Round(Scaled(major, scale)))
  }

  /** `MajorFromMinor`: the minor amount divided by 10^scale. */
  function MajorFromMinor(minor: int, scale: nat): (r: real)
    ensures Scaled(r, scale) == minor as real
  {
    var r := minor as real / Pow10(scale);
    ScaledIsProduct(r, scale);
    r
  }

  /** Rounding is symmetric about zero. */
  lemma RoundOdd(x: real)
    ensures Round(-x) == -Round(x)
  {
  }

  /** An integer rounds to itself. */
  lemma RoundInt(n: int)
    ensures Round(n as real) == n
  {
  }

  /** Rounding never reverses the order of two amounts. */
  lemma RoundMonotone(x: real, y: real)
    requires x <= y
    ensures Round(x) <= Round(y)
  {
    if x < 0.0 && y >= 0.0 {
    } else if x >= 0.0 {
      assert x + 0.5 <= y + 0.5;
    } else {
      assert -y + 0.5 <= -x + 0.5;
    }
  }

  /** Minor units survive the trip to major units and back. */
  lemma MinorMajorRoundTrip(minor: int, scale: nat)
    requires InInt64(minor)
    ensures MinorFromMajor(MajorFromMinor(minor, scale), scale) == minor
  {
    RoundInt(minor);
  }

  /** Converting a larger major amount never gives fewer minor units. */
  lemma MinorFromMajorMonotone(a: real, b: real, scale: nat)
    requires a <= b
    requires InInt64(Round(Scaled(a, scale))) && InInt64(Round(Scaled(b, scale)))
    ensures MinorFromMajor(a, scale) <= MinorFromMajor(b, scale)
  {
    ScaledMonotone(a, b, scale);
    RoundMonotone(Scaled(a, scale), Scaled(b, scale));
  }

  /** Scaling keeps the order of two amounts. */
  lemma {:induction false} ScaledMonotone(a: real, b: real, scale: nat)
    requires a <= b
    ensures Scaled(a, scale) <= Scaled(b, scale)
  {
    if scale > 0 {
      ScaledMonotone(a, b, scale - 1);
    }
  }

  /** A non-negative major amount never converts to a negative minor amount. */
  lemma MinorFromMajorNonNegative(major: real, scale: nat)
    requires major >= 0.0
    ensures MinorFromMajor(major, scale) >= 0 || MinorFromMajor(major, scale) == Int64Min
  {
    ScaledMonotone(0.0, major, scale);
    ScaledZero(scale);
  }

  lemma {:induction false} ScaledZero(scale: nat)
    ensures Scaled(0.0, scale) == 0.0
  {
    if scale > 0 {
      ScaledZero(scale - 1);
    }
  }

  const Int64Min := -0x8000_0000_0000_0000
  const Int64Max := 0x7FFF_FFFF_FFFF_FFFF

  predicate InInt64(x: int) {
    Int64Min <= x <= Int64Max
  }

  /** Two's-complement wrap-around of Go's `int64` arithmetic. */
  function Wrap64(x: int): (r: int)
    ensures InInt64(r)
    ensures InInt64(x) ==> r == x
  {
    (x - Int64Min) % 0x1_0000_0000_0000_0000 + Int64Min
  }

  /** Wrapping moves a value by a whole number of 2^64 steps. */
  lemma WrapOffset(x: int) returns (k: int)
    ensures Wrap64(x) == x + k * 0x1_0000_0000_0000_0000
  {
    var m := 0x1_0000_0000_0000_0000;
    var y := x - Int64Min;
    assert y == m * (y / m) + y % m;
    k := -(y / m);
  }

  /** Wrapping after every step is the same as wrapping once at the end. */
  lemma WrapAdd(a: int, b: int)
    ensures Wrap64(Wrap64(a) + b) == Wrap64(a + b)
  {
    var k := WrapOffset(a);
    assert Wrap64(a) + b == a + b + k * 0x1_0000_0000_0000_0000;
    WrapShift(a + b, k);
  }

  lemma WrapShift(x: int, k: int)
    ensures Wrap64(x + k * 0x1_0000_0000_0000_0000) == Wrap64(x)
  {
    var m := 0x1_0000_0000_0000_0000;
    var y := x - Int64Min;
    assert y == m * (y / m) + y % m;
    assert y + k * m == m * (y / m + k) + y % m;
  }
}
