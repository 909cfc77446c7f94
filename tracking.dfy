/** The configuration and the tracking record shared by versions 1.1 and
    1.2 of the monitor, which define the same constants and the same record. */
module Tracking {

  /** Minimum liquidity, in dollars, for a tracked mint to graduate. */
  const MIN_LIQUIDITY: real := 5000.0
  /** Minimum volume, in dollars, for a tracked mint to graduate. */
  const MIN_VOLUME: real := 20000.0
  /** The number of loops for which a new mint is tracked. */
  const MAX_LOOPS: int := 5

  /** A tracking record: `{expires_at_loop, best_liq, best_vol}`. */
  datatype Rec = Rec(expiresAtLoop: int, bestLiq: real, bestVol: real)

  function Max(a: real, b: real): (r: real)
    ensures r >= a && r >= b
    ensures r == a || r == b
  {
    if a >= b then a else b
  }

  /** `best_liq = max(best_liq, current_liq)`, and the same for volume. */
  function Ratchet(r: Rec, liq: real, vol: real): (r': Rec)
    ensures r'.expiresAtLoop == r.expiresAtLoop
    ensures r'.bestLiq >= r.bestLiq && r'.bestLiq >= liq
    ensures r'.bestLiq == r.bestLiq || r'.bestLiq == liq
    ensures r'.bestVol >= r.bestVol && r'.bestVol >= vol
    ensures r'.bestVol == r.bestVol || r'.bestVol == vol
  {
    Rec(r.expiresAtLoop, Max(r.bestLiq, liq), Max(r.bestVol, vol))
  }

  /** The graduation test: both thresholds, not either. */
  predicate Graduates(r: Rec)
  {
    r.bestLiq >= MIN_LIQUIDITY && r.bestVol >= MIN_VOLUME
  }

  /** The expiry test `now_loop >= expires_at_loop`. */
  predicate Expired(r: Rec, nowLoop: int)
  {
    nowLoop >= r.expiresAtLoop
  }

  predicate Distinct<T(==)>(s: seq<T>)
  {
    forall i, j :: 0 <= i < j < |s| ==> s[i] != s[j]
  }
}
