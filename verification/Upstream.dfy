/** How an upstream status and a provider's circuit are read. */
module Upstream {
  import opened Text

  /** `providerStatusIsFailure` */
  predicate IsFailure(status: int) {
    status == 429 || status == 401 || status == 403 || status >= 500
  }

  /** May the same candidate be tried again after this status? */
  predicate AllowsRetry(status: int) {
    status == 408 || status == 429 || status >= 500
  }

  /** `providerCircuitOpen`: the end of the cooldown is already closed. */
  predicate OpenAt(openUntil: Option<int>, now: int) {
    openUntil.Some? && openUntil.value > now
  }
}
