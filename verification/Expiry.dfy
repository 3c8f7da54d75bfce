/** The two clock tests of the renewal decision: day rounding (src/certs.rs) and the
    waiting time of a pending rotation (src/state.rs).

    Instants are nanoseconds, as `chrono::DateTime<Utc>` holds them, and every division
    truncates toward zero, as Rust's and chrono's do. */
module Expiry {

  const NANOS: int := 1_000_000_000
  const HALF_DAY: int := 43_200
  const DAY: int := 86_400

  type Instant = int

  function TruncDiv(a: int, b: int): int
    requires b > 0
  {
    if a >= 0 then a / b else -((-a) / b)
  }

  /** `Duration::num_seconds`. */
  function NumSeconds(nanos: int): int {
    TruncDiv(nanos, NANOS)
  }

  /** `days_until_expiry` on a remainder in whole seconds. */
  function RoundDays(secs: int): int {
    if secs >= 0 then TruncDiv(secs + HALF_DAY, DAY) else TruncDiv(secs - HALF_DAY, DAY)
  }

  function DaysUntilExpiry(notAfter: Instant, now: Instant): int {
    RoundDays(NumSeconds(notAfter - now))
  }

  predicate ExpiresWithinDays(notAfter: Instant, now: Instant, days: nat) {
    DaysUntilExpiry(notAfter, now) <= days
  }

  /** `PendingRotation::ttl_expired`. */
  predicate TtlExpired(publishedAt: Instant, oldTtl: nat, now: Instant) {
    NumSeconds(now - publishedAt) >= oldTtl
  }

  /** Rounding is to the nearest day: never more than half a day away from the remainder. */
  lemma RoundDaysIsNearest(secs: int)
    ensures -HALF_DAY <= secs - RoundDays(secs) * DAY <= HALF_DAY
  {
  }

  /** A certificate that expired x seconds ago and one with x seconds left count the same days. */
  lemma RoundDaysIsOdd(secs: int)
    ensures RoundDays(-secs) == -RoundDays(secs)
  {
  }

  lemma RoundDaysIsMonotone(a: int, b: int)
    requires a <= b
    ensures RoundDays(a) <= RoundDays(b)
  {
  }

  /** A certificate is due exactly while less than `days` days and a half are left, to the
      nanosecond and for instants on both sides of the expiry. */
  lemma DueExactly(notAfter: Instant, now: Instant, days: nat)
    ensures ExpiresWithinDays(notAfter, now, days) <==> notAfter - now < (days * 86_400 + 43_200) * 1_000_000_000
  {
  }

  /** Once due, a certificate stays due. */
  lemma DueStays(notAfter: Instant, now: Instant, later: Instant, days: nat)
    requires now <= later && ExpiresWithinDays(notAfter, now, days)
    ensures ExpiresWithinDays(notAfter, later, days)
  {
  }

  /** The TTL test is exact on a clock that has not been set back. A clock set back by less
      than a second also passes it when the TTL is zero, because truncation is toward zero. */
  lemma TtlExpiredExactly(publishedAt: Instant, oldTtl: nat, now: Instant)
    ensures TtlExpired(publishedAt, oldTtl, now) <==>
              if oldTtl == 0 then now - publishedAt > -1_000_000_000
              else now - publishedAt >= oldTtl * 1_000_000_000
  {
  }

  /** Once the TTL has expired it stays expired. */
  lemma TtlExpiredStays(publishedAt: Instant, oldTtl: nat, now: Instant, later: Instant)
    requires now <= later && TtlExpired(publishedAt, oldTtl, now)
    ensures TtlExpired(publishedAt, oldTtl, later)
  {
  }
}
