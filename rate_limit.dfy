/** The GitHub rate-limit gate the live-data routes and script run before anything else. */
module RateLimit {

  /** The outcome of asking GitHub for the remaining quota: the request failed (a non-OK
      status or a thrown error), or it reported how many requests remain. */
  datatype RateCheck = RateCheckFailed | Remaining(remaining: int)

  /** Whether the gate stops the request: only a reported quota below the threshold does;
      a failed check lets the request through. */
  predicate RateLimited(check: RateCheck, threshold: int)
  {
    check.Remaining? && check.remaining < threshold
  }

  lemma FailedCheckIgnored(threshold: int)
    ensures !RateLimited(RateCheckFailed, threshold)
  {
  }
}
