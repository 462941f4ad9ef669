/** What normalizing makes of the configured limits. */
module LimiterLimits {
  import opened LimiterSpec

  /** A limit that was not set counts as one. */
  function Or1(value: int): (r: int) { if value > 0 then value else 1 }

  /** Some reserve is left over from every total and asked for of every kind. */
  predicate WantsReserve(l: Limits) {
    && l.maxConcurrent > 1 && l.rate > 1 && l.burst > 1
    && l.reservedConcurrent > 0 && l.reservedRate > 0 && l.reservedBurst > 0
  }

  function Below(value: int, total: int): (r: int) { if value < total then value else total - 1 }

  /** Every limit keeps its own configured value if that is positive and is one otherwise; a lifetime
      that is not positive is a minute; the reserve is cut to less than its total, all three or none. */
  lemma LimitsAreKept(l: Limits)
    ensures var n := NormalizeLimits(l);
            && n.maxConcurrent == Or1(l.maxConcurrent) && n.rate == Or1(l.rate) && n.burst == Or1(l.burst)
            && n.clientConcurrent == Or1(l.clientConcurrent) && n.clientRate == Or1(l.clientRate) && n.clientBurst == Or1(l.clientBurst)
            && n.principalConcurrent == Or1(l.principalConcurrent) && n.principalRate == Or1(l.principalRate)
            && n.principalBurst == Or1(l.principalBurst)
            && n.ingressRate == Or1(l.ingressRate) && n.ingressBurst == Or1(l.ingressBurst)
            && n.maxKeys == Or1(l.maxKeys) && n.trustedTtl == (if l.trustedTtl > 0.0 then l.trustedTtl else 60.0)
    ensures var n := NormalizeLimits(l);
            if WantsReserve(l)
            then && n.reservedConcurrent == Below(l.reservedConcurrent, l.maxConcurrent)
                 && n.reservedRate == Below(l.reservedRate, l.rate) && n.reservedBurst == Below(l.reservedBurst, l.burst)
            else n.reservedConcurrent == n.reservedRate == n.reservedBurst == 0
  {}

  /** Limits that are all set, with a reserve that is a proper part of every total or absent. */
  predicate Proper(l: Limits) {
    && l.maxConcurrent > 0 && l.rate > 0 && l.burst > 0 && l.maxKeys > 0 && l.trustedTtl > 0.0
    && l.clientConcurrent > 0 && l.clientRate > 0 && l.clientBurst > 0
    && l.principalConcurrent > 0 && l.principalRate > 0 && l.principalBurst > 0
    && l.ingressRate > 0 && l.ingressBurst > 0
    && (|| (l.reservedConcurrent == l.reservedRate == l.reservedBurst == 0)
        || (0 < l.reservedConcurrent < l.maxConcurrent && 0 < l.reservedRate < l.rate && 0 < l.reservedBurst < l.burst))
  }

  /** Normalizing leaves exactly the proper limits alone. */
  lemma ProperAreFixed(l: Limits)
    ensures NormalizeLimits(l) == l <==> Proper(l)
  {
    LimitsAreKept(l);
    hide NormalizeLimits;
  }

  lemma NormalizedTwice(l: Limits)
    ensures Proper(NormalizeLimits(l)) && NormalizeLimits(NormalizeLimits(l)) == NormalizeLimits(l)
  {
    LimitsAreKept(l);
    ProperAreFixed(NormalizeLimits(l));
    hide NormalizeLimits;
  }
}
