/** Time as the verifiers see it: epoch milliseconds, parsed dates, and the 30 second leeway. */
module Clock {

  /** ID104 leeway in milliseconds, shared by grant expiry, key windows and reclaim. */
  const CLOCK_SKEW_LEEWAY_MS: int := 30_000

  /** A date field after Date.parse: absent, present but unparseable, or a finite instant. */
  datatype Date = Missing | Unparseable | At(ms: int)

  predicate IsExpiredAt(expiresAtMs: int, nowMs: int) {
    expiresAtMs + CLOCK_SKEW_LEEWAY_MS < nowMs
  }
}
