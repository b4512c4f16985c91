/**
 * The profit-margin band `[1.1 * base, 1.5 * base]` and the two ways the
 * engines clamp a price into it.
 */
module Margin {

  function Max(a: real, b: real): (m: real)
    ensures m >= a && m >= b
    ensures m == a || m == b
  {
    if a >= b then a else b
  }

  function Min(a: real, b: real): (m: real)
    ensures m <= a && m <= b
    ensures m == a || m == b
  {
    if a <= b then a else b
  }

  /** The price keeps at least a 10% and at most a 50% markup on `base`. */
  predicate InBand(price: real, base: real) {
    base * 1.1 <= price <= base * 1.5
  }

  /**
   * The fallback engine's clamp, `max(base * 1.1, min(price, base * 1.5))`:
   * cap at the ceiling first, then raise to the floor. For a negative base the
   * band is empty and the floor wins.
   */
  function CapThenRaise(price: real, base: real): (c: real)
    ensures base >= 0.0 ==> InBand(c, base)
    ensures base >= 0.0 && InBand(price, base) ==> c == price
    ensures base >= 0.0 && price < base * 1.1 ==> c == base * 1.1
    ensures base >= 0.0 && price > base * 1.5 ==> c == base * 1.5
    ensures base < 0.0 ==> c == base * 1.1
  {
    Max(base * 1.1, Min(price, base * 1.5))
  }

  /**
   * The advanced engine's clamp, `min(max(price, base * 1.1), base * 1.5)`:
   * raise to the floor first, then cap at the ceiling. For a negative base the
   * band is empty and the ceiling wins.
   */
  function RaiseThenCap(price: real, base: real): (c: real)
    ensures base >= 0.0 ==> InBand(c, base)
    ensures base >= 0.0 && InBand(price, base) ==> c == price
    ensures base >= 0.0 && price < base * 1.1 ==> c == base * 1.1
    ensures base >= 0.0 && price > base * 1.5 ==> c == base * 1.5
    ensures base < 0.0 ==> c == base * 1.5
  {
    Min(Max(price, base * 1.1), base * 1.5)
  }

  /** Clamping an already clamped price changes nothing, for either clamp. */
  lemma ClampsIdempotent(price: real, base: real)
    ensures CapThenRaise(CapThenRaise(price, base), base) == CapThenRaise(price, base)
    ensures RaiseThenCap(RaiseThenCap(price, base), base) == RaiseThenCap(price, base)
  {
  }

  /** The two clamps agree exactly when the base is not negative (or the band has one point). */
  lemma ClampsAgreeIffNonNegativeBase(price: real, base: real)
    ensures CapThenRaise(price, base) == RaiseThenCap(price, base) <==> base >= 0.0
  {
  }
}
