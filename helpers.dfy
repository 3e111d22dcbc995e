/** Pricing and the size-tier icon (src/utils/helpers.js). */
module Helpers {

  /**
   * JavaScript's `Math.round` on an exact value: the nearest integer,
   * with a half rounded up (towards positive infinity).
   */
  function Round(x: real): (r: int)
    ensures r as real - 0.5 <= x < r as real + 0.5
  {
    (x + 0.5).Floor
  }

  /** The bracket in `Round`'s contract pins its result down. */
  lemma RoundUnique(x: real, n: int)
    requires n as real - 0.5 <= x < n as real + 0.5
    ensures Round(x) == n
  {
  }

  lemma RoundMonotone(x: real, y: real)
    requires x <= y
    ensures Round(x) <= Round(y)
  {
  }

  /**
   * `calculateTotalPrice`: the base price plus VAT at `vat` percent,
   * rounded as `Math.round` does. Arithmetic is exact here; the
   * floating-point rounding of the product is not modelled.
   */
  function CalculateTotalPrice(priceBeforeVat: real, vat: real): (r: int)
    ensures r as real - 0.5 <= priceBeforeVat * (1.0 + vat / 100.0) < r as real + 0.5
  {
    Round(priceBeforeVat * (1.0 + vat / 100.0))
  }

  /** A JavaScript number with no fractional part. */
  predicate IsWhole(x: real)
  {
    x == x.Floor as real
  }

  /** With no VAT the total is the base price, rounded. */
  lemma TotalPriceWithoutVat(priceBeforeVat: real)
    ensures CalculateTotalPrice(priceBeforeVat, 0.0) == Round(priceBeforeVat)
  {
  }

  lemma CastProduct(a: int, b: int)
    ensures (a * b) as real == a as real * b as real
  {
  }

  /**
   * On whole numbers the rounded total is an integer division:
   * floor((p * (100 + v) + 50) / 100), which is half-up rounding of
   * p * (100 + v) / 100. Dafny's `/` with a positive divisor is floor
   * division, so this holds for negative inputs too.
   */
  lemma TotalPriceOnIntegers(p: int, v: int)
    ensures CalculateTotalPrice(p as real, v as real) == (p * (100 + v) + 50) / 100
  {
    // The argument spelled out; the solver also finds it unaided.
    var n := p * (100 + v);
    var q := (n + 50) / 100;
    var m := (n + 50) % 100;
    assert n + 50 == 100 * q + m && 0 <= m < 100;
    CastProduct(p, 100 + v);
    var x := p as real * (1.0 + v as real / 100.0);
    assert x == n as real / 100.0;
    assert (n + 50) as real == 100.0 * q as real + m as real;
    assert q as real - 0.5 <= x < q as real + 0.5;
    RoundUnique(x, q);
  }

  /** Worked examples: 100 at 20% is 120, 0 stays 0, and 99 at 15% (113.85, not a half) rounds to 114. */
  lemma TotalPriceExamples()
    ensures CalculateTotalPrice(100.0, 20.0) == 120
    ensures CalculateTotalPrice(0.0, 20.0) == 0
    ensures CalculateTotalPrice(99.0, 15.0) == 114
  {
    TotalPriceOnIntegers(100, 20);
    TotalPriceOnIntegers(0, 20);
    TotalPriceOnIntegers(99, 15);
  }

  /** A dearer base price never gives a smaller total (for any VAT of at least -100%). */
  lemma TotalPriceMonotoneInPrice(p1: real, p2: real, vat: real)
    requires p1 <= p2 && vat >= -100.0
    ensures CalculateTotalPrice(p1, vat) <= CalculateTotalPrice(p2, vat)
  {
    var f := 1.0 + vat / 100.0;
    assert f >= 0.0;
    assert p1 * f <= p2 * f by {
      assert (p2 - p1) * f >= 0.0;
    }
    RoundMonotone(p1 * f, p2 * f);
  }

  /** A higher VAT rate never gives a smaller total on a non-negative base price. */
  lemma TotalPriceMonotoneInVat(price: real, v1: real, v2: real)
    requires price >= 0.0 && v1 <= v2
    ensures CalculateTotalPrice(price, v1) <= CalculateTotalPrice(price, v2)
  {
    var f1 := 1.0 + v1 / 100.0;
    var f2 := 1.0 + v2 / 100.0;
    assert price * f1 <= price * f2 by {
      assert price * (f2 - f1) >= 0.0;
    }
    RoundMonotone(price * f1, price * f2);
  }

  /** The three icons `getSkipIcon` chooses from, smallest tier first. */
  datatype SkipIcon = WasteBasket | Package | Lorry {

    /** The emoji the markup shows. */
    function Glyph(): string
    {
      match this
      case WasteBasket => "\U{1F5D1}\U{FE0F}"
      case Package => "\U{1F4E6}"
      case Lorry => "\U{1F69B}"
    }

    function Tier(): nat
    {
      match this
      case WasteBasket => 0
      case Package => 1
      case Lorry => 2
    }
  }

  /** `getSkipIcon`: up to 8 yards, up to 14 yards, larger. */
  function GetSkipIcon(size: real): (icon: SkipIcon)
    ensures icon == WasteBasket <==> size <= 8.0
    ensures icon == Package <==> 8.0 < size <= 14.0
    ensures icon == Lorry <==> 14.0 < size
  {
    if size <= 8.0 then WasteBasket
    else if size <= 14.0 then Package
    else Lorry
  }

  /** A larger skip never gets a smaller icon tier. */
  lemma SkipIconMonotone(s1: real, s2: real)
    requires s1 <= s2
    ensures GetSkipIcon(s1).Tier() <= GetSkipIcon(s2).Tier()
  {
  }
}
