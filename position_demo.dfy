/**
 * The single-position script: the open-position valuation in its
 * realized-crediting variant, with the open-position order-type mapping.
 */
module PositionDemo {
  import opened Wrappers
  import Units
  import opened Curve
  import opened Orders
  import opened OpenValuation

  /** `calculatePositionData` of the single-position script. */
  function PositionDemoData(curve: CurveOracle, p: OpenPosition, solPrice: real): (r: Option<OpenMetrics>)
    requires ValuationDefined(OpenPositionMapping, p)
    ensures r.None? <==> (if p.order.orderType == 1 then SellIncome(curve, p).None?
                          else CloseCost(curve, p).None? || UnlockAmount(curve, p).None?)
    ensures r.Some? ==>
      && r.value == OpenData(RealizedCredited, OpenPositionMapping, curve, p, solPrice).value
      && DualDenominated(r.value, solPrice)
      && (r.value.direction == DirectionLabel(Long) <==> p.order.orderType == 1)
      && (r.value.direction == DirectionLabel(Short) <==> p.order.orderType != 1)
      && r.value.orderType == p.order.orderType
  {
    OpenPositionDispatch(RealizedCredited, curve, p);
    OpenData(RealizedCredited, OpenPositionMapping, curve, p, solPrice)
  }

  /**
   * A long position (order_type 1): the current margin is added to gross profit
   * and subtracted again, so net profit is sell proceeds minus borrowed plus
   * realized, and the percentage is taken on the current margin.
   */
  lemma PositionDemoLongValuation(curve: CurveOracle, p: OpenPosition, solPrice: real)
    requires ValuationDefined(OpenPositionMapping, p) && p.order.orderType == 1 && SellIncome(curve, p).Some?
    ensures var o := p.order;
      var m := PositionDemoData(curve, p, solPrice).value;
      var b := LongProfit(RealizedCredited, curve, p).value;
      && b.grossProfit == SellIncome(curve, p).value + Units.ToSol(o.marginSolAmount) - Units.ToSol(o.borrowAmount)
      && m.marginInSol == Units.ToSol(o.marginSolAmount)
      && m.netProfitInSol == SellIncome(curve, p).value - Units.ToSol(o.borrowAmount) + Units.ToSol(RealizedLamports(o))
      && m.profitPercentage * Units.ToSol(o.marginSolAmount) == m.netProfitInSol * 100.0
      && m.realizedInSol == Units.ToSol(RealizedLamports(o))
      && m.stopLossPercentage == LongStopLossPercentage(p.latestPrice, o.lockLpStartPrice)
  {
    OpenPositionDispatch(RealizedCredited, curve, p);
  }

  /**
   * A short position (order_type other than 1): net profit is the unlock amount
   * minus the close cost minus the initial margin, and the percentage credits
   * the realized amount: (realized + net) / initial margin * 100. The margin
   * shown is the current margin, although the valuation uses the initial one.
   */
  lemma PositionDemoShortValuation(curve: CurveOracle, p: OpenPosition, solPrice: real)
    requires ValuationDefined(OpenPositionMapping, p) && p.order.orderType != 1
    requires CloseCost(curve, p).Some? && UnlockAmount(curve, p).Some?
    ensures var o := p.order;
      var m := PositionDemoData(curve, p, solPrice).value;
      && m.marginInSol == Units.ToSol(o.marginSolAmount)
      && m.realizedInSol == Units.ToSol(RealizedLamports(o))
      && m.netProfitInSol == UnlockAmount(curve, p).value - CloseCost(curve, p).value - Units.ToSol(o.marginInitSolAmount)
      && m.profitPercentage * Units.ToSol(o.marginInitSolAmount)
         == (Units.ToSol(RealizedLamports(o)) + m.netProfitInSol) * 100.0
      && m.stopLossPercentage == ShortStopLossPercentage(p.latestPrice, o.lockLpStartPrice)
  {
    OpenPositionDispatch(RealizedCredited, curve, p);
  }
}
