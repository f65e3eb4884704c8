/** A value that may be absent: a JavaScript `null` result, or a nullable field. */
module Wrappers {
  datatype Option<+T> = None | Some(value: T)
}

/**
 * Unit scaling shared by every valuation: raw lamport amounts become SOL by a
 * division by 10^9, raw fixed-point prices become display prices by a division
 * by 10^23. Decimal arithmetic is modelled exactly with `real`.
 */
module Units {

  /** Lamports per SOL, 10^9. */
  const LamportsPerSol: int := 1_000_000_000

  /** Fixed-point scale of a raw price, 10^23. */
  const PriceScale: int := 100_000_000_000_000_000_000_000

  /** A raw lamport amount expressed in SOL. */
  function ToSol(lamports: int): (sol: real)
    ensures sol * LamportsPerSol as real == lamports as real
    ensures (sol < 0.0 <==> lamports < 0) && (sol == 0.0 <==> lamports == 0)
  {
    lamports as real / LamportsPerSol as real
  }

  /** A raw fixed-point price expressed as a display price. */
  function ToDisplayPrice(raw: int): (price: real)
    ensures price * PriceScale as real == raw as real
    ensures (price < 0.0 <==> raw < 0) && (price == 0.0 <==> raw == 0)
  {
    raw as real / PriceScale as real
  }

  /** The inverse of ToSol on whole lamports: back to a lamport count, truncating sub-lamport digits. */
  function ToLamports(sol: real): (lamports: int)
    ensures lamports as real <= sol * LamportsPerSol as real < lamports as real + 1.0
  {
    (sol * LamportsPerSol as real).Floor
  }

  /** Scaling to SOL loses nothing: converting back gives the original lamport count. */
  lemma ToSolRoundTrip(lamports: int)
    ensures ToLamports(ToSol(lamports)) == lamports
  {
    assert ToSol(lamports) * LamportsPerSol as real == lamports as real;
  }

  /** Scaling is injective: two lamport amounts with the same SOL value are equal. */
  lemma ToSolInjective(a: int, b: int)
    requires ToSol(a) == ToSol(b)
    ensures a == b
  {
    ToSolRoundTrip(a);
    ToSolRoundTrip(b);
  }

  /** Scaling commutes with addition and subtraction of lamport amounts. */
  lemma ToSolLinear(a: int, b: int)
    ensures ToSol(a + b) == ToSol(a) + ToSol(b)
    ensures ToSol(a - b) == ToSol(a) - ToSol(b)
  {
  }
}
