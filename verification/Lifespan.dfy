/** Remaining lifetimes as they cross from Rust seconds to Go nanoseconds. */
module Lifespan {
  import opened Integers
  import opened Statuses
  import opened X25519
  import opened KeyTypes

  const MAX_DURATION_SECS: int := MAX_INT64 / SECOND

  /** The duration put into a key claim: whole seconds, clamped where int64 nanoseconds end. */
  function Claim(secs: nat): int {
    if secs > MAX_DURATION_SECS then MAX_INT64 else secs * SECOND
  }

  /** Nanoseconds left of a lifespan of `secs` after `elapsed` of it. */
  function Left(secs: nat, elapsed: nat): nat {
    if secs * SECOND > elapsed then secs * SECOND - elapsed else 0
  }

  /** For every created key and any two later readings: reports start at what was asked for and never
      grow, and the claim fits int64, never overstates, and falls short by under a second below the cap. */
  lemma LifespanHonest(algo: HpkeAlgorithm, secs: nat, created: nat, draw: Draw, bound: Option<Key32>, now: nat,
                       later: nat)
    requires created <= now <= later
    requires CreateKey(algo, secs, created, draw, bound).Ok?
    ensures var deadline := CreateKey(algo, secs, created, draw, bound).value.meta.deleteAfter;
            var reported := RemainingSecs(deadline, now);
            && RemainingSecs(deadline, later) <= reported <= secs
            && RemainingSecs(deadline, created) == secs
            && 0 <= Claim(RemainingSecs(deadline, later)) <= Claim(reported) <= MAX_INT64
            && Claim(reported) <= Left(secs, now - created)
            && (reported <= MAX_DURATION_SECS ==> Left(secs, now - created) - Claim(reported) < SECOND)
  {
    assert secs * SECOND / SECOND == secs;
  }
}
