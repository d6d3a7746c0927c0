/** How long a fetched list is kept: longer when it took longer to fetch, on wrapping 64-bit integers. */
module AdaptiveTtl {
  import opened Decimal

  function Ttl(base: int, duration: int): int {
    if duration <= 0 then base
    else
      var raised := Wrap64(base + Wrap64(duration * 2));
      var ttl := if raised < base then base else raised;
      var max := Wrap64(base * 5);
      if ttl > max then max else ttl
  }

  method ComputeTtl(base: int, duration: int) returns (ttl: int)
    ensures ttl == Ttl(base, duration)
  {
    if duration <= 0 {
      return base;
    }
    ttl := Wrap64(base + Wrap64(duration * 2));
    if ttl < base {
      ttl := base;
    }
    var max := Wrap64(base * 5);
    if ttl > max {
      ttl := max;
    }
  }

  /** For every duration and every positive base whose fivefold fits: within [base, 5 base], the capped
      sum when the sum fits, and the base when it overflows. */
  lemma TtlBounds(base: int, duration: int)
    requires 0 < base && 5 * base <= MAX_INT64 && IsInt64(duration)
    ensures base <= Ttl(base, duration) <= 5 * base
    ensures Ttl(base, duration) ==
      if duration <= 0 || base + 2 * duration > MAX_INT64 then base
      else if base + 2 * duration < 5 * base then base + 2 * duration
      else 5 * base
  {
  }
}
