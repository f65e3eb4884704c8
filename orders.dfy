/**
 * The order records the valuation reads, the position direction, and the
 * mapping from an `order_type` code to a direction. The two kinds of script
 * disagree on that mapping, so it is an explicit parameter here.
 */
module Orders {
  import opened Wrappers

  datatype Direction = Long | Short

  function Opposite(d: Direction): (e: Direction)
    ensures e != d
  {
    if d == Long then Short else Long
  }

  /** The direction label shown for a position. */
  function DirectionLabel(d: Direction): (text: string)
    ensures text == "做多 (LONG)" <==> d == Long
    ensures text == "做空 (SHORT)" <==> d == Short
  {
    match d
    case Long => "做多 (LONG)"
    case Short => "做空 (SHORT)"
  }

  /**
   * How an `order_type` code is read: code 1 is the direction `codeOne`, and
   * every other code, known or not, is the opposite one.
   */
  datatype OrderTypeMapping = OrderTypeMapping(codeOne: Direction)

  /** The open-position scripts: order_type 1 is LONG, anything else SHORT. */
  const OpenPositionMapping: OrderTypeMapping := OrderTypeMapping(Long)

  /** The history script: order_type 1 is SHORT, anything else LONG. */
  const HistoryMapping: OrderTypeMapping := OrderTypeMapping(Short)

  function DirectionOf(m: OrderTypeMapping, orderType: int): (d: Direction)
    ensures d == m.codeOne <==> orderType == 1
  {
    if orderType == 1 then m.codeOne else Opposite(m.codeOne)
  }

  /** The history mapping is the reverse of the open-position mapping on every code, known or unknown. */
  lemma MappingsAreReversed(orderType: int)
    ensures DirectionOf(OpenPositionMapping, orderType) == Opposite(DirectionOf(HistoryMapping, orderType))
    ensures DirectionOf(OpenPositionMapping, orderType) == Long <==> orderType == 1
    ensures DirectionOf(HistoryMapping, orderType) == Short <==> orderType == 1
  {
  }

  /**
   * The entry-side fields of an order. Amounts are raw lamports, prices raw
   * fixed-point integers at scale 10^23, times unix seconds. A missing
   * `realized_sol_amount` is `None`.
   */
  datatype Order = Order(
    orderId: int,
    orderType: int,
    openPrice: int,
    lockLpStartPrice: int,
    lockLpTokenAmount: int,
    marginSolAmount: int,
    marginInitSolAmount: int,
    borrowAmount: int,
    realizedSolAmount: Option<int>,
    startTime: int)

  /** An open position: an order together with the latest mark price the caller injected. */
  datatype OpenPosition = OpenPosition(order: Order, latestPrice: int)

  /** `realized_sol_amount || 0`: a missing realized amount counts as 0 lamports. */
  function RealizedLamports(o: Order): (l: int)
    ensures o.realizedSolAmount.None? ==> l == 0
    ensures o.realizedSolAmount.Some? ==> l == o.realizedSolAmount.value
  {
    match o.realizedSolAmount
    case None => 0
    case Some(v) => v
  }
}
