/** What to do after an unsatisfactory attempt (orchestrator/fallback_manager.py). */
module FallbackManager {
  import opened Prelude
  import opened Routing

  datatype Reason = Valid | ProviderError | RateLimit | Timeout | Refusal | FormatViolation | Truncated | TooShort

  datatype Policy = Policy(maxAttempts: int, maxTotalLatencyMs: int, allowEscalation: bool)

  datatype Decision = RetrySameTier(why: Why) | EscalateTier(next: Tier, why: Why) | Stop(why: Why)

  datatype Why = MaxAttempts | LatencyBudget | LatencyBudgetRecovery | Because(reason: Reason)

  /**
    `next` is what `next_tier_fn(current_tier)` would answer, its exception included; it is looked
    at only where the source asks.
   */
  function Decide(reason: Reason, attemptIndex: nat, elapsedMs: int, remaining: nat, policy: Policy,
                  next: Result<Option<Tier>, RoutingError>)
    : (r: Result<Decision, RoutingError>)
    ensures r.Err? ==> next.Err?
    ensures r.Ok? && !r.value.Stop? ==> attemptIndex + 1 < policy.maxAttempts
    ensures r.Ok? && r.value.RetrySameTier? ==> remaining > 0
    ensures r.Ok? && r.value.EscalateTier? ==> next == Ok(Some(r.value.next)) && elapsedMs < policy.maxTotalLatencyMs
    ensures elapsedMs >= policy.maxTotalLatencyMs && attemptIndex > 0 ==> r.Ok? && r.value.Stop?
  {
    if attemptIndex + 1 >= policy.maxAttempts then Ok(Stop(MaxAttempts))
    else if elapsedMs >= policy.maxTotalLatencyMs then
      if attemptIndex == 0 && remaining > 0 && reason in {ProviderError, TooShort, Truncated} then
        Ok(RetrySameTier(LatencyBudgetRecovery))
      else Ok(Stop(LatencyBudget))
    else if reason in {ProviderError, RateLimit, Timeout, Refusal} && remaining > 0 then
      Ok(RetrySameTier(Because(reason)))
    else if reason == Truncated && remaining > 0 then Ok(RetrySameTier(Because(reason)))
    else if reason in {Refusal, TooShort, FormatViolation, Truncated} && policy.allowEscalation then
      match next
      case Err(e) => Err(e)
      case Ok(None) => Ok(Stop(Because(reason)))
      case Ok(Some(tier)) => Ok(EscalateTier(tier, Because(reason)))
    else Ok(Stop(Because(reason)))
  }

  // -- when each decision is taken -------------------------------------------------------------------

  predicate InTime(attemptIndex: nat, elapsedMs: int, policy: Policy) {
    attemptIndex + 1 < policy.maxAttempts && elapsedMs < policy.maxTotalLatencyMs
  }

  /** Too short or ill-formed answers go up at once, refused or truncated ones when the tier has nobody else. */
  predicate WantsUp(reason: Reason, remaining: nat) {
    reason == TooShort || reason == FormatViolation ||
    (remaining == 0 && (reason == Refusal || reason == Truncated))
  }

  /** While there are attempts and time: every decision and exactly when it is taken. */
  lemma InTimeDecisions(reason: Reason, attemptIndex: nat, elapsedMs: int, remaining: nat, policy: Policy,
                        next: Result<Option<Tier>, RoutingError>, t: Tier)
    requires reason != Valid && InTime(attemptIndex, elapsedMs, policy)
    ensures var r := Decide(reason, attemptIndex, elapsedMs, remaining, policy, next);
            && (r == Ok(RetrySameTier(Because(reason))) <==>
                  remaining > 0 && reason in {ProviderError, RateLimit, Timeout, Refusal, Truncated})
            && (r == Ok(EscalateTier(t, Because(reason))) <==>
                  policy.allowEscalation && next == Ok(Some(t)) && WantsUp(reason, remaining))
            && (r == Ok(Stop(Because(reason))) <==>
                  if WantsUp(reason, remaining) then !policy.allowEscalation || next == Ok(None)
                  else remaining == 0)
            && (r.Err? <==> policy.allowEscalation && next.Err? && WantsUp(reason, remaining))
            && (r.Err? ==> r.error == next.error)
  {
  }

  /** Out of attempts the run stops; out of time it has one recovery, after the first attempt and in its tier. */
  lemma LateDecisions(reason: Reason, attemptIndex: nat, elapsedMs: int, remaining: nat, policy: Policy,
                      next: Result<Option<Tier>, RoutingError>)
    requires !InTime(attemptIndex, elapsedMs, policy)
    ensures var r := Decide(reason, attemptIndex, elapsedMs, remaining, policy, next);
            && (r == Ok(Stop(MaxAttempts)) <==> attemptIndex + 1 >= policy.maxAttempts)
            && (r == Ok(RetrySameTier(LatencyBudgetRecovery)) <==>
                  attemptIndex + 1 < policy.maxAttempts && attemptIndex == 0 && remaining > 0 &&
                  reason in {ProviderError, TooShort, Truncated})
            && (r == Ok(Stop(LatencyBudget)) <==>
                  attemptIndex + 1 < policy.maxAttempts &&
                  !(attemptIndex == 0 && remaining > 0 && reason in {ProviderError, TooShort, Truncated}))
  {
  }
}
