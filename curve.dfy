/**
 * The bonding-curve quote oracle as the valuation sees it. The pricing formula
 * itself is outside the model: the oracle is a pair of total functions of
 * (raw price, token amount), and an oracle call that throws is `None`.
 */
module Curve {
  import opened Wrappers
  import Units

  /**
   * What a curve quote returns: either a bare lamport amount, or an array whose
   * element at index 1 is the amount actually produced or consumed.
   */
  datatype QuoteResult = Bare(amount: int) | Tuple(elements: seq<int>)

  /**
   * The two curve operations the valuation calls. `None` stands for a call
   * that throws, which the valuation catches and reports as a missing result.
   */
  datatype CurveOracle = CurveOracle(
    sellFromPriceWithTokenInput: (int, int) -> Option<QuoteResult>,
    buyFromPriceWithTokenOutput: (int, int) -> Option<QuoteResult>)

  /**
   * The lamport amount a quote stands for: element [1] of an array, the value
   * itself otherwise. An array without an element [1] yields `undefined`, whose
   * `toString()` throws, so the amount is missing.
   */
  function QuoteLamports(q: QuoteResult): (r: Option<int>)
    ensures q.Bare? ==> r == Some(q.amount)
    ensures q.Tuple? && |q.elements| >= 2 ==> r == Some(q.elements[1])
    ensures r.None? <==> q.Tuple? && |q.elements| < 2
  {
    match q
    case Bare(a) => Some(a)
    case Tuple(es) => if |es| >= 2 then Some(es[1]) else None
  }

  /** The result of an oracle call converted to SOL; missing when the call throws or the quote has no amount. */
  function QuoteSol(call: Option<QuoteResult>): (r: Option<real>)
    ensures r.None? <==> call.None? || QuoteLamports(call.value).None?
    ensures r.Some? ==> r.value * Units.LamportsPerSol as real == QuoteLamports(call.value).value as real
  {
    match call
    case None => None
    case Some(q) =>
      match QuoteLamports(q)
      case None => None
      case Some(l) => Some(Units.ToSol(l))
  }

  /** Only element [1] of an array quote matters: the other elements never change the amount. */
  lemma QuoteIgnoresOtherElements(es: seq<int>, es': seq<int>)
    requires |es| >= 2 && |es'| >= 2 && es[1] == es'[1]
    ensures QuoteSol(Some(Tuple(es))) == QuoteSol(Some(Tuple(es')))
  {
  }

  /** An array quote with amount x at index 1 values exactly like the bare quote x. */
  lemma TupleAgreesWithBare(es: seq<int>)
    requires |es| >= 2
    ensures QuoteSol(Some(Tuple(es))) == QuoteSol(Some(Bare(es[1])))
  {
  }
}
