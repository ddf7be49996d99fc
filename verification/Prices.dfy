/** Dollar amounts on the grid of 1e-12 USD (`normalizePrice` in internal/policy/config.go). */
module Prices {

  const SCALE: int := 1_000_000_000_000

  /** `math.Round`: to the nearest integer, halves away from zero. */
  function Round(x: real): int {
    if x >= 0.0 then (x + 0.5).Floor else -((0.5 - x).Floor)
  }

  function Usd(units: int): real { units as real / SCALE as real }

  function NormalizePrice(v: real): real { Usd(Round(v * SCALE as real)) }

  predicate OnGrid(v: real) { NormalizePrice(v) == v }

  lemma {:induction false} RoundInteger(n: int)
    ensures Round(n as real) == n
  {
  }

  lemma {:induction false} ScaleCancels(n: int)
    ensures Usd(n) * SCALE as real == n as real
  {
  }

  /** Grid amounts are their own rounding. */
  lemma {:induction false} UsdIsOnGrid(n: int)
    ensures NormalizePrice(Usd(n)) == Usd(n) && OnGrid(Usd(n))
  {
    ScaleCancels(n);
    RoundInteger(n);
  }

  lemma {:induction false} NormalizeIsIdempotent(v: real)
    ensures OnGrid(NormalizePrice(v))
  {
    UsdIsOnGrid(Round(v * SCALE as real));
  }

  lemma {:induction false} NormalizeKeepsSign(v: real)
    requires v >= 0.0
    ensures NormalizePrice(v) >= 0.0
  {
  }

  /** Rounding moves an amount by at most half a grid unit. */
  lemma {:induction false} RoundIsNear(x: real)
    ensures x - 0.5 <= Round(x) as real <= x + 0.5
  {
  }

  /** A whole number of grid units next to `v`, and `v` itself if that is one. */
  ghost predicate RoundedTo(n: real, v: real) {
    && (exists units :: n == Usd(units))
    && v - Usd(1) / 2.0 <= n <= v + Usd(1) / 2.0
    && (forall units :: v == Usd(units) ==> n == v)
  }

  lemma {:induction false} NormalizeRounds(v: real)
    ensures RoundedTo(NormalizePrice(v), v)
  {
    RoundIsNear(v * SCALE as real);
    forall units | v == Usd(units) ensures NormalizePrice(v) == v { UsdIsOnGrid(units); }
  }
}
