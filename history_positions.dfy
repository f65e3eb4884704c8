/**
 * The closed-position script: realized profit and loss of a closed order, with
 * the forced-liquidation override, the holding time, the leverage and the
 * close-reason label. No curve quote is involved.
 */
module HistoryPositions {
  import opened Wrappers
  import Units
  import opened Orders
  import TimeFormat
  import Leverage

  /** How and when an order was closed. */
  datatype CloseInfo = CloseInfo(closePrice: int, closeReason: int, closeTimestamp: int)

  /** One closed order as the history read returns it. */
  datatype HistoryRecord = HistoryRecord(order: Order, closeInfo: CloseInfo)

  /** The close reason of a forced liquidation. */
  const ForcedLiquidation: int := 2

  /**
   * Holding time from opening to closing, with the script's floors on real
   * quotients in every bucket (seconds included). On integer timestamps this
   * copy agrees with the shared formatter everywhere.
   */
  function FormatHoldingTime(startTime: int, closeTime: int): (s: string)
    ensures s == TimeFormat.FormatDuration(closeTime - startTime)
  {
    var duration := closeTime - startTime;
    if duration < 60 then
      TimeFormat.FlooredBucket(duration, 1, 's')
    else if duration < 3600 then
      TimeFormat.FlooredBucket(duration, 60, 'm')
    else if duration < 86400 then
      TimeFormat.FlooredBucket(duration, 3600, 'h')
    else
      TimeFormat.FlooredBucket(duration, 86400, 'd')
  }

  /** The record the script prints for one closed order. */
  datatype HistoryMetrics = HistoryMetrics(
    orderId: int,
    direction: string,
    orderType: int,
    holdingTime: string,
    leverage: real,
    marginInSol: real,
    marginInUsdt: real,
    realizedInSol: real,
    realizedInUsdt: real,
    profitPercentage: real,
    closePrice: int,
    closeReason: int,
    closeTimestamp: int)

  /** The divisors the valuation of a closed order meets are non-zero. */
  predicate HistoryDefined(rec: HistoryRecord) {
    && (rec.closeInfo.closeReason != ForcedLiquidation ==> rec.order.marginInitSolAmount != 0)
    && Leverage.LeverageDefined(rec.order)
  }

  /** Realized profit of a closed order in SOL and USDT, and as a percentage of the initial margin. */
  datatype RealizedPnl = RealizedPnl(sol: real, usdt: real, percentage: real)

  /**
   * The close-reason branch: a forced liquidation reports exactly zero whatever
   * was recorded; any other reason reports the recorded realized amount.
   */
  function ClosedRealized(closeReason: int, realizedLamports: int, marginInitLamports: int, solPrice: real): (r: RealizedPnl)
    requires closeReason != ForcedLiquidation ==> marginInitLamports != 0
    ensures closeReason == ForcedLiquidation ==> r == RealizedPnl(0.0, 0.0, 0.0)
    ensures closeReason != ForcedLiquidation ==>
      && r.sol == Units.ToSol(realizedLamports)
      && r.usdt == r.sol * solPrice
      && r.percentage * Units.ToSol(marginInitLamports) == r.sol * 100.0
  {
    if closeReason == ForcedLiquidation then
      RealizedPnl(0.0, 0.0, 0.0)
    else
      var realizedSol := Units.ToSol(realizedLamports);
      var marginInitSol := Units.ToSol(marginInitLamports);
      var profitPercentage := realizedSol / marginInitSol * 100.0;
      assert profitPercentage * marginInitSol == realizedSol * 100.0;
      RealizedPnl(realizedSol, realizedSol * solPrice, profitPercentage)
  }

  /** `calculateHistoryData`: the metrics of one closed order. */
  function CalculateHistoryData(rec: HistoryRecord, solPrice: real): (h: HistoryMetrics)
    requires HistoryDefined(rec)
    ensures h.direction == DirectionLabel(DirectionOf(HistoryMapping, rec.order.orderType))
    ensures h.direction == DirectionLabel(Short) <==> rec.order.orderType == 1
    ensures h.direction == DirectionLabel(Long) <==> rec.order.orderType != 1
    ensures h.orderId == rec.order.orderId && h.orderType == rec.order.orderType
    ensures h.marginInSol == Units.ToSol(rec.order.marginInitSolAmount) && h.marginInUsdt == h.marginInSol * solPrice
    ensures RealizedPnl(h.realizedInSol, h.realizedInUsdt, h.profitPercentage)
         == ClosedRealized(rec.closeInfo.closeReason, RealizedLamports(rec.order), rec.order.marginInitSolAmount, solPrice)
    ensures h.holdingTime == TimeFormat.FormatDuration(rec.closeInfo.closeTimestamp - rec.order.startTime)
    ensures h.leverage == Leverage.OrderLeverage(rec.order)
    ensures h.closePrice == rec.closeInfo.closePrice && h.closeReason == rec.closeInfo.closeReason
    ensures h.closeTimestamp == rec.closeInfo.closeTimestamp
  {
    var realized := ClosedRealized(rec.closeInfo.closeReason, RealizedLamports(rec.order), rec.order.marginInitSolAmount, solPrice);
    ClosedMetrics(rec.order.(realizedSolAmount := None), rec.closeInfo, realized, solPrice)
  }

  /**
   * The record assembled from the order, the close information and the
   * close-reason branch's realized figures. The recorded realized amount
   * reaches the record only through that branch, so the order is passed without it.
   */
  function ClosedMetrics(order: Order, closeInfo: CloseInfo, realized: RealizedPnl, solPrice: real): HistoryMetrics
    requires Leverage.LeverageDefined(order)
  {
    var marginInitSol := Units.ToSol(order.marginInitSolAmount);
    HistoryMetrics(
      order.orderId, DirectionLabel(DirectionOf(HistoryMapping, order.orderType)), order.orderType,
      FormatHoldingTime(order.startTime, closeInfo.closeTimestamp), Leverage.OrderLeverage(order),
      marginInitSol, marginInitSol * solPrice,
      realized.sol, realized.usdt, realized.percentage,
      closeInfo.closePrice, closeInfo.closeReason, closeInfo.closeTimestamp)
  }

  /**
   * Forced liquidation (close reason 2) reports realized SOL, realized USDT and
   * the percentage as exactly 0, for any margin, prices and recorded amount.
   */
  lemma ForcedLiquidationIsZero(rec: HistoryRecord, solPrice: real)
    requires HistoryDefined(rec) && rec.closeInfo.closeReason == ForcedLiquidation
    ensures var h := CalculateHistoryData(rec, solPrice);
      h.realizedInSol == 0.0 && h.realizedInUsdt == 0.0 && h.profitPercentage == 0.0
  {
  }

  /** Under forced liquidation the recorded realized amount has no influence on any output field. */
  lemma ForcedLiquidationIgnoresRealized(rec: HistoryRecord, solPrice: real, realized: Option<int>)
    requires HistoryDefined(rec) && rec.closeInfo.closeReason == ForcedLiquidation
    ensures CalculateHistoryData(rec, solPrice)
         == CalculateHistoryData(rec.(order := rec.order.(realizedSolAmount := realized)), solPrice)
  {
    var rec' := rec.(order := rec.order.(realizedSolAmount := realized));
    assert rec'.order.(realizedSolAmount := None) == rec.order.(realizedSolAmount := None);
  }

  /** A record closed after 90 seconds shows a holding time of "1m". */
  lemma HoldingTimeExample(rec: HistoryRecord, solPrice: real)
    requires HistoryDefined(rec) && rec.closeInfo.closeTimestamp == rec.order.startTime + 90
    ensures CalculateHistoryData(rec, solPrice).holdingTime == "1m"
  {
  }

  /** The close-reason labels of codes 1 to 5. */
  const CloseReasonLabels: map<int, string> := map[
    1 := "用户主动平仓",
    2 := "强制清算",
    3 := "到期自动平仓",
    4 := "用户主动平半仓",
    5 := "到期平半仓"]

  const UnknownReasonLabel: string := "未知原因"

  /** `getCloseReasonLabel`: the label of a close-reason code, the unknown label for any other code. */
  function CloseReasonLabel(closeReason: int): (text: string)
    ensures 1 <= closeReason <= 5 ==> text == CloseReasonLabels[closeReason]
    ensures text == UnknownReasonLabel <==> !(1 <= closeReason <= 5)
  {
    if closeReason in CloseReasonLabels then CloseReasonLabels[closeReason] else UnknownReasonLabel
  }

  /** Reads a label back to its close-reason code. */
  function CloseReasonOfLabel(text: string): (code: Option<int>)
    ensures code.Some? ==> 1 <= code.value <= 5
  {
    if text == CloseReasonLabels[1] then Some(1)
    else if text == CloseReasonLabels[2] then Some(2)
    else if text == CloseReasonLabels[3] then Some(3)
    else if text == CloseReasonLabels[4] then Some(4)
    else if text == CloseReasonLabels[5] then Some(5)
    else None
  }

  /** The label identifies the close reason: each known code is read back from its label, any other code gives none. */
  lemma CloseReasonLabelRoundTrip(closeReason: int)
    ensures 1 <= closeReason <= 5 ==> CloseReasonOfLabel(CloseReasonLabel(closeReason)) == Some(closeReason)
    ensures !(1 <= closeReason <= 5) ==> CloseReasonOfLabel(CloseReasonLabel(closeReason)).None?
  {
  }
}
