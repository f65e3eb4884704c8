/**
 * The active-positions script: the open-position valuation in its
 * initial-margin variant, with the open-position order-type mapping, the
 * position's age and its leverage merged into the metrics record.
 */
module ActivePositions {
  import opened Wrappers
  import Units
  import opened Curve
  import opened Orders
  import TimeFormat
  import Leverage
  import opened OpenValuation

  /**
   * Age of a position at time `now`, with the script's floors on real
   * quotients in every bucket (seconds included). On integer timestamps the
   * floors change nothing: this copy agrees with the shared formatter everywhere.
   */
  function FormatOpenTime(now: int, startTime: int): (s: string)
    ensures s == TimeFormat.FormatPositionTime(now, startTime)
  {
    var duration := now - startTime;
    if duration < 60 then
      TimeFormat.FlooredBucket(duration, 1, 's')
    else if duration < 3600 then
      TimeFormat.FlooredBucket(duration, 60, 'm')
    else if duration < 86400 then
      TimeFormat.FlooredBucket(duration, 3600, 'h')
    else
      TimeFormat.FlooredBucket(duration, 86400, 'd')
  }

  /** The record the script prints for one active position. */
  datatype ActiveMetrics = ActiveMetrics(
    orderId: int,
    openTime: string,
    leverage: real,
    metrics: OpenMetrics)

  /** What the active valuation needs of a position: non-zero divisors on its branch and in the leverage. */
  predicate ActiveDefined(p: OpenPosition) {
    ValuationDefined(OpenPositionMapping, p) && Leverage.LeverageDefined(p.order)
  }

  /** `calculatePositionData` of the active-positions script. */
  function ActivePositionData(curve: CurveOracle, p: OpenPosition, solPrice: real, now: int): (r: Option<ActiveMetrics>)
    requires ActiveDefined(p)
    ensures r.None? <==> (if p.order.orderType == 1 then SellIncome(curve, p).None?
                          else CloseCost(curve, p).None? || UnlockAmount(curve, p).None?)
    ensures r.Some? ==>
      && r.value.metrics == OpenData(MarginInitGross, OpenPositionMapping, curve, p, solPrice).value
      && DualDenominated(r.value.metrics, solPrice)
      && (r.value.metrics.direction == DirectionLabel(Long) <==> p.order.orderType == 1)
      && (r.value.metrics.direction == DirectionLabel(Short) <==> p.order.orderType != 1)
      && r.value.orderId == p.order.orderId
      && r.value.openTime == TimeFormat.FormatPositionTime(now, p.order.startTime)
      && r.value.leverage == Leverage.OrderLeverage(p.order)
  {
    OpenPositionDispatch(MarginInitGross, curve, p);
    match OpenData(MarginInitGross, OpenPositionMapping, curve, p, solPrice)
    case None => None
    case Some(m) =>
      Some(ActiveMetrics(p.order.orderId, FormatOpenTime(now, p.order.startTime), Leverage.OrderLeverage(p.order), m))
  }

  /**
   * An active long position (order_type 1): net profit is sell proceeds plus
   * initial margin minus borrowed minus current margin, the profit percentage is
   * taken on the current margin, and `realized` enters neither.
   */
  lemma ActiveLongValuation(curve: CurveOracle, p: OpenPosition, solPrice: real, now: int)
    requires ActiveDefined(p) && p.order.orderType == 1 && SellIncome(curve, p).Some?
    ensures var o := p.order;
      var m := ActivePositionData(curve, p, solPrice, now).value.metrics;
      && m.marginInSol == Units.ToSol(o.marginSolAmount)
      && m.realizedInSol == Units.ToSol(RealizedLamports(o))
      && m.netProfitInSol == SellIncome(curve, p).value + Units.ToSol(o.marginInitSolAmount)
                             - Units.ToSol(o.borrowAmount) - Units.ToSol(o.marginSolAmount)
      && m.profitPercentage * Units.ToSol(o.marginSolAmount) == m.netProfitInSol * 100.0
      && m.stopLossPercentage == LongStopLossPercentage(p.latestPrice, o.lockLpStartPrice)
  {
    OpenPositionDispatch(MarginInitGross, curve, p);
  }

  /**
   * An active short position (any order_type other than 1): net profit is the
   * unlock amount minus the close cost minus the initial margin, and the profit
   * percentage is taken on the initial margin without `realized`.
   */
  lemma ActiveShortValuation(curve: CurveOracle, p: OpenPosition, solPrice: real, now: int)
    requires ActiveDefined(p) && p.order.orderType != 1
    requires CloseCost(curve, p).Some? && UnlockAmount(curve, p).Some?
    ensures var o := p.order;
      var m := ActivePositionData(curve, p, solPrice, now).value.metrics;
      && m.marginInSol == Units.ToSol(o.marginSolAmount)
      && m.netProfitInSol == UnlockAmount(curve, p).value - CloseCost(curve, p).value
                             - Units.ToSol(o.marginInitSolAmount)
      && m.profitPercentage * Units.ToSol(o.marginInitSolAmount) == m.netProfitInSol * 100.0
      && m.stopLossPercentage == ShortStopLossPercentage(p.latestPrice, o.lockLpStartPrice)
  {
    OpenPositionDispatch(MarginInitGross, curve, p);
  }

  /**
   * An order type other than 1 and 2 is valued on the short path and shown with
   * leverage 0: the dispatch and the leverage read the code differently.
   */
  lemma UnknownOrderTypeIsShortWithZeroLeverage(curve: CurveOracle, p: OpenPosition, solPrice: real, now: int)
    requires ActiveDefined(p) && p.order.orderType != 1 && p.order.orderType != 2
    ensures var r := ActivePositionData(curve, p, solPrice, now);
      r.Some? ==> r.value.metrics.direction == DirectionLabel(Short) && r.value.leverage == 0.0
  {
  }

  /** A curve that quotes the same bare amount for every call. */
  function ConstantCurve(lamports: int): CurveOracle {
    CurveOracle((price: int, amount: int) => Some(Bare(lamports)), (price: int, amount: int) => Some(Bare(lamports)))
  }

  /**
   * Long scenario: stop price 1000, latest price 1100, margin and initial margin
   * 1 SOL, borrowed 0.5 SOL, sell proceeds 1.6 SOL. Gross profit 2.1 SOL, net
   * profit 1.1 SOL, profit 110 %, stop-loss 10 %.
   */
  lemma LongScenario(o: Order, solPrice: real, now: int)
    requires o.orderType == 1 && o.lockLpStartPrice == 1000 && o.openPrice == 900
    requires o.marginSolAmount == 1_000_000_000 && o.marginInitSolAmount == 1_000_000_000
    requires o.borrowAmount == 500_000_000
    ensures var p := OpenPosition(o, 1100);
      var b := LongProfit(MarginInitGross, ConstantCurve(1_600_000_000), p).value;
      var r := ActivePositionData(ConstantCurve(1_600_000_000), p, solPrice, now).value;
      && b.grossProfit == 2.1
      && r.metrics.netProfitInSol == 1.1
      && r.metrics.profitPercentage == 110.0
      && r.metrics.stopLossPercentage == 10.0
      && r.leverage == 9.0
  {
    var p := OpenPosition(o, 1100);
    var c := ConstantCurve(1_600_000_000);
    assert SellIncome(c, p) == Some(1.6);
    assert Leverage.RawLeverage(900, 1000) == 9.0;
    assert Leverage.RoundHalfUp(9.0) == 9;
  }
}
