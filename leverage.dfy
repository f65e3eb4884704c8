/**
 * Leverage from the distance between the entry price and the stop-loss
 * trigger price (`lock_lp_start_price`): 1 / |stop-loss ratio|, rounded to one
 * decimal below 1 and to an integer otherwise; 0 for an unknown order type.
 * The open-position and history scripts carry identical copies of this.
 */
module Leverage {
  import Units
  import opened Orders

  function Abs(x: real): (r: real)
    ensures r >= 0.0 && (r == x || r == -x)
  {
    if x < 0.0 then -x else x
  }

  /** `Math.round`: the nearest integer, halves rounded up. */
  function RoundHalfUp(x: real): (n: int)
    ensures x - 0.5 < n as real <= x + 0.5
  {
    (x + 0.5).Floor
  }

  /** The nearest-integer property determines RoundHalfUp: it is the unique integer within a half of x, ties going up. */
  lemma RoundHalfUpUnique(x: real, k: int)
    requires x - 0.5 < k as real <= x + 0.5
    ensures RoundHalfUp(x) == k
  {
  }

  /** Rounding policy applied to a raw leverage: one decimal below 1, an integer otherwise. */
  function RoundLeverage(raw: real): (r: real)
    ensures raw < 1.0 ==> (r * 10.0).Floor as real == r * 10.0 && raw - 0.05 < r <= raw + 0.05
    ensures raw >= 1.0 ==> r.Floor as real == r && raw - 0.5 < r <= raw + 0.5
    ensures raw >= 0.0 ==> r >= 0.0
  {
    if raw < 1.0 then RoundHalfUp(raw * 10.0) as real / 10.0 else RoundHalfUp(raw) as real
  }

  /** What `calculateLeverage` requires to avoid a zero divisor for the two known order types. */
  predicate LeverageDefined(o: Order) {
    (o.orderType == 1 || o.orderType == 2) ==> o.openPrice != 0 && o.openPrice != o.lockLpStartPrice
  }

  /**
   * The leverage of an order, computed on display prices as the scripts do.
   * It reads only the order type and the two prices of the order.
   */
  function CalculateLeverage(orderType: int, rawOpenPrice: int, rawLockLpStartPrice: int): (r: real)
    requires (orderType == 1 || orderType == 2) ==> rawOpenPrice != 0 && rawOpenPrice != rawLockLpStartPrice
    ensures orderType != 1 && orderType != 2 ==> r == 0.0
    ensures orderType == 1 || orderType == 2 ==> r == RoundLeverage(RawLeverage(rawOpenPrice, rawLockLpStartPrice))
  {
    var openPrice := Units.ToDisplayPrice(rawOpenPrice);
    var lockLpStartPrice := Units.ToDisplayPrice(rawLockLpStartPrice);
    if orderType == 1 then
      var ratio := (lockLpStartPrice - openPrice) / openPrice;
      ScaleCancels(rawOpenPrice, rawLockLpStartPrice, ratio);
      RoundLeverage(1.0 / Abs(ratio))
    else if orderType == 2 then
      var ratio := (openPrice - lockLpStartPrice) / openPrice;
      ScaleCancels(rawOpenPrice, rawLockLpStartPrice, -ratio);
      RoundLeverage(1.0 / Abs(ratio))
    else
      0.0
  }

  /** The leverage of an order record: it reads only the order type and the two prices, and is never negative. */
  function OrderLeverage(o: Order): (r: real)
    requires LeverageDefined(o)
    ensures r >= 0.0
    ensures o.orderType == 1 || o.orderType == 2 ==> r == RoundLeverage(RawLeverage(o.openPrice, o.lockLpStartPrice))
    ensures o.orderType != 1 && o.orderType != 2 ==> r == 0.0
  {
    CalculateLeverage(o.orderType, o.openPrice, o.lockLpStartPrice)
  }

  /**
   * Reference definition of the unrounded leverage on raw integer prices:
   * |open| / |stop - open|. The 10^23 price scale does not appear.
   */
  function RawLeverage(openPrice: int, stopPrice: int): (raw: real)
    requires openPrice != 0 && openPrice != stopPrice
    ensures raw > 0.0
  {
    var o := openPrice as real;
    var d := (stopPrice - openPrice) as real;
    Abs(o) / Abs(d)
  }

  /** The price scale cancels: 1 / |(stop - open) / open| on display prices is the raw-price ratio. */
  lemma ScaleCancels(openPrice: int, stopPrice: int, ratio: real)
    requires openPrice != 0 && openPrice != stopPrice
    requires ratio == (Units.ToDisplayPrice(stopPrice) - Units.ToDisplayPrice(openPrice)) / Units.ToDisplayPrice(openPrice)
    ensures ratio != 0.0 && Abs(ratio) == Abs(-ratio)
    ensures 1.0 / Abs(ratio) == RawLeverage(openPrice, stopPrice)
  {
    var s := Units.PriceScale as real;
    var o := openPrice as real;
    var d := (stopPrice - openPrice) as real;
    assert Units.ToDisplayPrice(stopPrice) - Units.ToDisplayPrice(openPrice) == d / s;
    QuotientOfScaled(d, o, s);
    RecipOfAbsQuotient(d, o);
  }

  lemma QuotientOfScaled(a: real, b: real, s: real)
    requires b != 0.0 && s > 0.0
    ensures (a / s) / (b / s) == a / b
  {
    assert (a / s) / (b / s) * b == a;
  }

  lemma RecipOfAbsQuotient(d: real, o: real)
    requires d != 0.0 && o != 0.0
    ensures d / o != 0.0
    ensures 1.0 / Abs(d / o) == Abs(o) / Abs(d)
  {
    assert Abs(d / o) == Abs(d) / Abs(o);
  }

  /** Order types 1 and 2 give the same leverage: the sign of the ratio is removed by the absolute value. */
  lemma LeverageIgnoresDirection(openPrice: int, lockLpStartPrice: int)
    requires openPrice != 0 && openPrice != lockLpStartPrice
    ensures CalculateLeverage(1, openPrice, lockLpStartPrice) == CalculateLeverage(2, openPrice, lockLpStartPrice)
    ensures CalculateLeverage(1, openPrice, lockLpStartPrice) >= 0.0
  {
  }

  /** A raw leverage of 0.37 is reported as 0.4, one of 24.6 as 25. */
  lemma RoundingExamples()
    ensures CalculateLeverage(1, 37, 137) == 0.4
    ensures CalculateLeverage(2, 246, 236) == 25.0
  {
    assert RawLeverage(37, 137) == 0.37;
    assert RoundHalfUp(3.7) == 4;
    assert RawLeverage(246, 236) == 24.6;
    assert RoundHalfUp(24.6) == 25;
  }
}
