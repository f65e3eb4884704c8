/**
 * Unrealized profit and loss of an open position, long or short, and the
 * dual-denominated (SOL and USDT) metrics record built from it. Two formula
 * variants exist side by side in the open-position scripts; `Formula` selects one.
 */
module OpenValuation {
  import opened Wrappers
  import Units
  import opened Curve
  import opened Orders

  /**
   * MarginInitGross: long gross profit adds the initial margin and `realized`
   * is credited nowhere (demo-active-positions.js).
   * RealizedCredited: long gross profit adds the current margin, long net
   * profit and short profit percentage credit `realized` (demo-position.js).
   */
  datatype Formula = MarginInitGross | RealizedCredited

  /** What one direction's calculation returns, all in SOL except the two percentages. */
  datatype ProfitBreakdown = ProfitBreakdown(
    grossProfit: real,
    netProfit: real,
    profitPercentage: real,
    stopLossPercentage: real,
    realizedSol: real,
    marginSol: real)

  /** The divisors of the long calculation are non-zero. */
  predicate LongDefined(p: OpenPosition) {
    p.order.marginSolAmount != 0 && p.order.lockLpStartPrice != 0
  }

  /** The divisors of the short calculation are non-zero. */
  predicate ShortDefined(p: OpenPosition) {
    p.order.marginInitSolAmount != 0 && p.order.lockLpStartPrice != 0
  }

  /** Long stop-loss percentage: how far the latest price is above the stop price, relative to it. */
  function LongStopLossPercentage(latestPrice: int, startPrice: int): (pct: real)
    requires startPrice != 0
    ensures pct * startPrice as real == (latestPrice - startPrice) as real * 100.0
  {
    (latestPrice as real - startPrice as real) / startPrice as real * 100.0
  }

  /** Short stop-loss percentage: how far the latest price is below the stop price, relative to it. */
  function ShortStopLossPercentage(latestPrice: int, startPrice: int): (pct: real)
    requires startPrice != 0
    ensures pct * startPrice as real == (startPrice - latestPrice) as real * 100.0
  {
    (startPrice as real - latestPrice as real) / startPrice as real * 100.0
  }

  /** For the same prices the short stop-loss percentage is exactly the negated long one. */
  lemma StopLossAntisymmetric(latestPrice: int, startPrice: int)
    requires startPrice != 0
    ensures ShortStopLossPercentage(latestPrice, startPrice) == -LongStopLossPercentage(latestPrice, startPrice)
    ensures LongStopLossPercentage(latestPrice, startPrice) == 0.0 <==> latestPrice == startPrice
  {
    var s := startPrice as real;
    var d := latestPrice as real - s;
    assert (-d) / s == -(d / s);
  }

  /** The SOL proceeds of selling the locked tokens at the latest price. */
  function SellIncome(curve: CurveOracle, p: OpenPosition): (r: Option<real>)
    ensures var call := curve.sellFromPriceWithTokenInput(p.latestPrice, p.order.lockLpTokenAmount);
      && (r.None? <==> call.None? || QuoteLamports(call.value).None?)
      && (r.Some? ==> r.value * Units.LamportsPerSol as real == QuoteLamports(call.value).value as real)
  {
    QuoteSol(curve.sellFromPriceWithTokenInput(p.latestPrice, p.order.lockLpTokenAmount))
  }

  /** The SOL cost of buying back the locked tokens at the latest price. */
  function CloseCost(curve: CurveOracle, p: OpenPosition): (r: Option<real>)
    ensures var call := curve.buyFromPriceWithTokenOutput(p.latestPrice, p.order.lockLpTokenAmount);
      && (r.None? <==> call.None? || QuoteLamports(call.value).None?)
      && (r.Some? ==> r.value * Units.LamportsPerSol as real == QuoteLamports(call.value).value as real)
  {
    QuoteSol(curve.buyFromPriceWithTokenOutput(p.latestPrice, p.order.lockLpTokenAmount))
  }

  /** The SOL released by unlocking: buying the locked tokens at the stop price. */
  function UnlockAmount(curve: CurveOracle, p: OpenPosition): (r: Option<real>)
    ensures var call := curve.buyFromPriceWithTokenOutput(p.order.lockLpStartPrice, p.order.lockLpTokenAmount);
      && (r.None? <==> call.None? || QuoteLamports(call.value).None?)
      && (r.Some? ==> r.value * Units.LamportsPerSol as real == QuoteLamports(call.value).value as real)
  {
    QuoteSol(curve.buyFromPriceWithTokenOutput(p.order.lockLpStartPrice, p.order.lockLpTokenAmount))
  }

  /** Profit and loss of a long position; missing when the sell quote fails. */
  function LongProfit(f: Formula, curve: CurveOracle, p: OpenPosition): (r: Option<ProfitBreakdown>)
    requires LongDefined(p)
    ensures r.None? <==> SellIncome(curve, p).None?
    ensures r.Some? ==> LongValued(f, p, SellIncome(curve, p).value, r.value)
  {
    match SellIncome(curve, p)
    case None => None
    case Some(currentSellIncomeSol) => Some(LongFromIncome(f, p, currentSellIncomeSol))
  }

  /** What a long breakdown states, given the sell proceeds `income` in SOL. */
  predicate LongValued(f: Formula, p: OpenPosition, income: real, b: ProfitBreakdown)
    requires LongDefined(p)
  {
    var o := p.order;
    && b.marginSol == Units.ToSol(o.marginSolAmount)
    && b.realizedSol == Units.ToSol(RealizedLamports(o))
    && (f == MarginInitGross ==>
          b.netProfit == income + Units.ToSol(o.marginInitSolAmount) - Units.ToSol(o.borrowAmount) - b.marginSol)
    && (f == RealizedCredited ==>
          b.netProfit == income - Units.ToSol(o.borrowAmount) + b.realizedSol)
    && b.profitPercentage * b.marginSol == b.netProfit * 100.0
    && b.stopLossPercentage == LongStopLossPercentage(p.latestPrice, o.lockLpStartPrice)
  }

  /** The long calculation once the sell proceeds are known. */
  function LongFromIncome(f: Formula, p: OpenPosition, currentSellIncomeSol: real): (b: ProfitBreakdown)
    requires LongDefined(p)
    ensures LongValued(f, p, currentSellIncomeSol, b)
    ensures b.grossProfit == currentSellIncomeSol - Units.ToSol(p.order.borrowAmount)
      + (if f == MarginInitGross then Units.ToSol(p.order.marginInitSolAmount) else b.marginSol)
  {
    var o := p.order;
    var marginSol := Units.ToSol(o.marginSolAmount);
    var borrowSol := Units.ToSol(o.borrowAmount);
    var realizedSol := Units.ToSol(RealizedLamports(o));
    var marginInitSol := Units.ToSol(o.marginInitSolAmount);
    var grossProfitSol :=
      if f == MarginInitGross then currentSellIncomeSol + marginInitSol - borrowSol
      else currentSellIncomeSol + marginSol - borrowSol;
    var netProfitSol :=
      if f == MarginInitGross then grossProfitSol - marginSol
      else grossProfitSol - marginSol + realizedSol;
    var profitPercentage := netProfitSol / marginSol * 100.0;
    PercentageTimesBase(netProfitSol, marginSol);
    ProfitBreakdown(
      grossProfitSol, netProfitSol, profitPercentage,
      LongStopLossPercentage(p.latestPrice, o.lockLpStartPrice),
      realizedSol, marginSol)
  }

  /** Profit and loss of a short position; missing when either buy quote fails. */
  function ShortProfit(f: Formula, curve: CurveOracle, p: OpenPosition): (r: Option<ProfitBreakdown>)
    requires ShortDefined(p)
    ensures r.None? <==> CloseCost(curve, p).None? || UnlockAmount(curve, p).None?
    ensures r.Some? ==>
      var o := p.order;
      var b := r.value;
      var marginInit := Units.ToSol(o.marginInitSolAmount);
      && b.marginSol == Units.ToSol(o.marginSolAmount)
      && b.realizedSol == Units.ToSol(RealizedLamports(o))
      && b.grossProfit == UnlockAmount(curve, p).value - CloseCost(curve, p).value
      && b.netProfit == b.grossProfit - marginInit
      && (f == MarginInitGross ==> b.profitPercentage * marginInit == b.netProfit * 100.0)
      && (f == RealizedCredited ==> b.profitPercentage * marginInit == (b.realizedSol + b.netProfit) * 100.0)
      && b.stopLossPercentage == ShortStopLossPercentage(p.latestPrice, o.lockLpStartPrice)
  {
    var o := p.order;
    var marginSol := Units.ToSol(o.marginSolAmount);
    var marginInitSol := Units.ToSol(o.marginInitSolAmount);
    var realizedSol := Units.ToSol(RealizedLamports(o));
    match CloseCost(curve, p)
    case None => None
    case Some(currentBuyCostSol) =>
      match UnlockAmount(curve, p)
      case None => None
      case Some(unlockSol) =>
        var grossProfitSol := unlockSol - currentBuyCostSol;
        var netProfitSol := grossProfitSol - marginInitSol;
        var credited := if f == MarginInitGross then netProfitSol else realizedSol + netProfitSol;
        var profitPercentage := credited / marginInitSol * 100.0;
        PercentageTimesBase(credited, marginInitSol);
        Some(ProfitBreakdown(
          grossProfitSol, netProfitSol, profitPercentage,
          ShortStopLossPercentage(p.latestPrice, o.lockLpStartPrice),
          realizedSol, marginSol))
  }

  /** x / base * 100 is the percentage whose product with the base is 100 x. */
  lemma PercentageTimesBase(x: real, base: real)
    requires base != 0.0
    ensures x / base * 100.0 * base == x * 100.0
  {
  }

  /** The metrics record of an open position: the direction label, and every USDT field being the SOL field times the spot rate. */
  datatype OpenMetrics = OpenMetrics(
    direction: string,
    orderType: int,
    marginInSol: real,
    marginInUsdt: real,
    netProfitInSol: real,
    netProfitInUsdt: real,
    profitPercentage: real,
    stopLossPercentage: real,
    realizedInSol: real,
    realizedInUsdt: real)

  /** Every USDT field is the matching SOL field times the SOL price. */
  predicate DualDenominated(m: OpenMetrics, solPrice: real) {
    && m.marginInUsdt == m.marginInSol * solPrice
    && m.netProfitInUsdt == m.netProfitInSol * solPrice
    && m.realizedInUsdt == m.realizedInSol * solPrice
  }

  /** The divisors of the branch the mapping selects are non-zero. */
  predicate ValuationDefined(m: OrderTypeMapping, p: OpenPosition) {
    if DirectionOf(m, p.order.orderType) == Long then LongDefined(p) else ShortDefined(p)
  }

  /** The calculation of the direction the order type selects under mapping m. */
  function Branch(f: Formula, m: OrderTypeMapping, curve: CurveOracle, p: OpenPosition): (r: Option<ProfitBreakdown>)
    requires ValuationDefined(m, p)
    ensures DirectionOf(m, p.order.orderType) == Long ==> (r.None? <==> SellIncome(curve, p).None?)
    ensures DirectionOf(m, p.order.orderType) == Short ==>
      (r.None? <==> CloseCost(curve, p).None? || UnlockAmount(curve, p).None?)
    ensures r.Some? ==>
      && r.value.marginSol == Units.ToSol(p.order.marginSolAmount)
      && r.value.realizedSol == Units.ToSol(RealizedLamports(p.order))
  {
    if DirectionOf(m, p.order.orderType) == Long then LongProfit(f, curve, p) else ShortProfit(f, curve, p)
  }

  /**
   * The unified entry point: dispatch on direction, report a missing branch
   * result as missing, and denominate the branch's SOL values in USDT too.
   */
  function OpenData(f: Formula, m: OrderTypeMapping, curve: CurveOracle, p: OpenPosition, solPrice: real): (r: Option<OpenMetrics>)
    requires ValuationDefined(m, p)
    ensures r.None? <==> Branch(f, m, curve, p).None?
    ensures r.Some? ==>
      var b := Branch(f, m, curve, p).value;
      && DualDenominated(r.value, solPrice)
      && r.value.direction == DirectionLabel(DirectionOf(m, p.order.orderType))
      && r.value.orderType == p.order.orderType
      && r.value.marginInSol == b.marginSol
      && r.value.netProfitInSol == b.netProfit
      && r.value.realizedInSol == b.realizedSol
      && r.value.profitPercentage == b.profitPercentage
      && r.value.stopLossPercentage == b.stopLossPercentage
  {
    var isLong := DirectionOf(m, p.order.orderType) == Long;
    var result := if isLong then LongProfit(f, curve, p) else ShortProfit(f, curve, p);
    match result
    case None => None
    case Some(b) =>
      Some(OpenMetrics(
        DirectionLabel(DirectionOf(m, p.order.orderType)), p.order.orderType,
        b.marginSol, b.marginSol * solPrice,
        b.netProfit, b.netProfit * solPrice,
        b.profitPercentage, b.stopLossPercentage,
        b.realizedSol, b.realizedSol * solPrice))
  }

  /**
   * Under the open-position mapping order_type 1 is valued as long, and every
   * other code, including unknown ones, as short.
   */
  lemma OpenPositionDispatch(f: Formula, curve: CurveOracle, p: OpenPosition)
    requires ValuationDefined(OpenPositionMapping, p)
    ensures p.order.orderType == 1 ==> LongDefined(p) && Branch(f, OpenPositionMapping, curve, p) == LongProfit(f, curve, p)
    ensures p.order.orderType != 1 ==> ShortDefined(p) && Branch(f, OpenPositionMapping, curve, p) == ShortProfit(f, curve, p)
  {
  }

  /**
   * In the realized-crediting variant the current margin cancels out of the
   * long net profit: two positions differing only in current margin have the
   * same net profit.
   */
  lemma CreditedLongNetIgnoresMargin(curve: CurveOracle, p: OpenPosition, margin: int)
    requires LongDefined(p) && margin != 0
    ensures var q := p.(order := p.order.(marginSolAmount := margin));
      LongProfit(RealizedCredited, curve, p).Some? ==>
        LongProfit(RealizedCredited, curve, q).value.netProfit == LongProfit(RealizedCredited, curve, p).value.netProfit
  {
  }

  /** The two long variants give the same net profit exactly when realized = initial margin - current margin. */
  lemma LongVariantsAgreeIff(curve: CurveOracle, p: OpenPosition)
    requires LongDefined(p) && SellIncome(curve, p).Some?
    ensures LongProfit(MarginInitGross, curve, p).value.netProfit == LongProfit(RealizedCredited, curve, p).value.netProfit
      <==> RealizedLamports(p.order) == p.order.marginInitSolAmount - p.order.marginSolAmount
  {
    var o := p.order;
    var a := LongProfit(MarginInitGross, curve, p).value.netProfit;
    var c := LongProfit(RealizedCredited, curve, p).value.netProfit;
    Units.ToSolLinear(o.marginInitSolAmount, o.marginSolAmount);
    assert c - a == Units.ToSol(RealizedLamports(o)) - Units.ToSol(o.marginInitSolAmount - o.marginSolAmount);
    if a == c {
      Units.ToSolInjective(RealizedLamports(o), o.marginInitSolAmount - o.marginSolAmount);
    }
  }

  /**
   * The two short variants agree on every field except the profit percentage,
   * and agree on that exactly when the realized amount is 0.
   */
  lemma ShortVariantsAgreeIff(curve: CurveOracle, p: OpenPosition)
    requires ShortDefined(p) && ShortProfit(MarginInitGross, curve, p).Some?
    ensures var a := ShortProfit(MarginInitGross, curve, p).value;
      var c := ShortProfit(RealizedCredited, curve, p).value;
      && a.(profitPercentage := 0.0) == c.(profitPercentage := 0.0)
      && (a.profitPercentage == c.profitPercentage <==> RealizedLamports(p.order) == 0)
  {
    var a := ShortProfit(MarginInitGross, curve, p).value;
    var c := ShortProfit(RealizedCredited, curve, p).value;
    var init := Units.ToSol(p.order.marginInitSolAmount);
    assert (c.profitPercentage - a.profitPercentage) * init == c.realizedSol * 100.0;
  }

  /**
   * At the stop price the short position breaks even before margin: the close
   * cost and the unlock amount are the same quote, so gross profit is 0.
   */
  lemma ShortGrossZeroAtStopPrice(f: Formula, curve: CurveOracle, p: OpenPosition)
    requires ShortDefined(p) && p.latestPrice == p.order.lockLpStartPrice
    ensures CloseCost(curve, p) == UnlockAmount(curve, p)
    ensures ShortProfit(f, curve, p).Some? ==>
      && ShortProfit(f, curve, p).value.grossProfit == 0.0
      && ShortProfit(f, curve, p).value.stopLossPercentage == 0.0
  {
  }

  /** A realized amount that is absent values exactly like a realized amount of 0 lamports, in both directions. */
  lemma MissingRealizedIsZero(f: Formula, m: OrderTypeMapping, curve: CurveOracle, p: OpenPosition)
    requires p.order.realizedSolAmount.None? && ValuationDefined(m, p)
    ensures Branch(f, m, curve, p) == Branch(f, m, curve, p.(order := p.order.(realizedSolAmount := Some(0))))
    ensures Branch(f, m, curve, p).Some? ==> Branch(f, m, curve, p).value.realizedSol == 0.0
  {
    var q := p.(order := p.order.(realizedSolAmount := Some(0)));
    assert RealizedLamports(q.order) == RealizedLamports(p.order) == 0;
    assert SellIncome(curve, p) == SellIncome(curve, q);
    assert CloseCost(curve, p) == CloseCost(curve, q);
    assert UnlockAmount(curve, p) == UnlockAmount(curve, q);
    if DirectionOf(m, p.order.orderType) == Long {
      assert LongProfit(f, curve, p) == LongProfit(f, curve, q);
    } else {
      assert ShortProfit(f, curve, p) == ShortProfit(f, curve, q);
    }
  }
}
