/** The tier decision (orchestrator/tier_decider.py) and its monotonicity. */
module TierDecider {
  import opened Routing

  datatype Thresholds = Thresholds(
    cheapMaxPromptTokens: int,
    strongPromptTokens: int,
    ultraPromptTokens: int,
    strongContextTokens: int)

  datatype TierDecision = TierDecision(tier: Tier, reasons: seq<string>)

  function Decide(f: PromptFeatures, t: Thresholds): TierDecision {
    if f.tokenEstimate >= t.ultraPromptTokens && f.strictFormat && f.needsAccuracy && f.hasFactual then
      TierDecision(T3, ["ultra_strict_high_accuracy"])
    else if f.hasCode || f.hasLogsStacktrace || f.intent == Code then
      TierDecision(T3, ["coding_priority_models"])
    else if (f.hasMath || f.hasAnalysis) &&
            (f.needsAccuracy || f.strictFormat || f.tokenEstimate >= t.strongPromptTokens ||
             f.contextTokenEstimate >= t.strongContextTokens) then
      TierDecision(T3, ["advanced_reasoning"])
    else if f.hasStrictConstraints && f.needsAccuracy && (f.hasFactual || f.hasAnalysis) then
      TierDecision(T3, ["strict_high_quality_output"])
    else if f.contextMessages > 0 && f.isFollowUp &&
            (f.hasAnalysis || f.needsAccuracy || f.needsLatestInfo || f.hasFactual) then
      TierDecision(T2, ["follow_up_needs_depth"])
    else if f.hasCode || f.hasMath || f.hasAnalysis || f.strictFormat || f.hasLogsStacktrace ||
            f.hasStrictConstraints then
      TierDecision(T2,
                   (if f.hasCode then ["code_detected"] else []) +
                   (if f.hasMath then ["math_detected"] else []) +
                   (if f.hasAnalysis then ["analysis_detected"] else []) +
                   (if f.strictFormat then ["strict_format"] else []) +
                   (if f.hasLogsStacktrace then ["logs_detected"] else []) +
                   (if f.hasStrictConstraints then ["strict_constraints"] else []))
    else if f.tokenEstimate >= t.strongPromptTokens || f.contextTokenEstimate >= t.strongContextTokens then
      TierDecision(T2, ["large_context_or_prompt"])
    else if f.needsAccuracy && f.hasFactual then
      TierDecision(T2, ["high_accuracy_factual"])
    else if f.intent in {Rewrite, Summarize, Bullets, Brainstorm} &&
            f.tokenEstimate < t.cheapMaxPromptTokens &&
            !f.strictFormat && !f.hasCode && !f.hasMath && !f.hasAnalysis then
      TierDecision(T0, ["short_simple_rewrite"])
    else
      TierDecision(T1, ["default_t1"])
  }

  /** `g` asks for at least as much as `f`, with the same intent. */
  predicate AsksAtLeast(g: PromptFeatures, f: PromptFeatures) {
    && g.intent == f.intent
    && g.tokenEstimate >= f.tokenEstimate
    && g.contextTokenEstimate >= f.contextTokenEstimate
    && g.contextMessages >= f.contextMessages
    && (f.hasCode ==> g.hasCode)
    && (f.hasMath ==> g.hasMath)
    && (f.hasAnalysis ==> g.hasAnalysis)
    && (f.hasFactual ==> g.hasFactual)
    && (f.strictFormat ==> g.strictFormat)
    && (f.hasLogsStacktrace ==> g.hasLogsStacktrace)
    && (f.isFollowUp ==> g.isFollowUp)
    && (f.needsLatestInfo ==> g.needsLatestInfo)
    && (f.needsAccuracy ==> g.needsAccuracy)
    && (f.hasStrictConstraints ==> g.hasStrictConstraints)
  }

  /** For every threshold setting, asking for more never lands on a lower tier. */
  lemma TierIsMonotone(f: PromptFeatures, g: PromptFeatures, t: Thresholds)
    requires AsksAtLeast(g, f)
    ensures Rank(Decide(f, t).tier) <= Rank(Decide(g, t).tier)
  {
  }

  // -- which tier, whatever rule says so first -------------------------------------------------------

  predicate Large(f: PromptFeatures, t: Thresholds) {
    f.tokenEstimate >= t.strongPromptTokens || f.contextTokenEstimate >= t.strongContextTokens
  }

  /** Code, hard reasoning, or exact and accurate work. */
  predicate ForTheBest(f: PromptFeatures, t: Thresholds) {
    || f.hasCode || f.hasLogsStacktrace || f.intent == Code
    || ((f.hasMath || f.hasAnalysis) && (f.needsAccuracy || f.strictFormat || Large(f, t)))
    || (f.needsAccuracy && f.hasFactual &&
        (f.hasStrictConstraints || (f.strictFormat && f.tokenEstimate >= t.ultraPromptTokens)))
  }

  /** Reasoning, a fixed form, a large payload, accuracy about facts, or a follow-up that asks for depth. */
  predicate ForStrong(f: PromptFeatures, t: Thresholds) {
    || f.hasMath || f.hasAnalysis || f.strictFormat || f.hasStrictConstraints || Large(f, t)
    || (f.needsAccuracy && f.hasFactual)
    || (f.isFollowUp && f.contextMessages > 0 && (f.needsAccuracy || f.needsLatestInfo || f.hasFactual))
  }

  /** A short piece of rewriting. */
  predicate ForCheap(f: PromptFeatures, t: Thresholds) {
    f.tokenEstimate < t.cheapMaxPromptTokens &&
    (f.intent == Rewrite || f.intent == Summarize || f.intent == Bullets || f.intent == Brainstorm)
  }

  lemma TierIff(f: PromptFeatures, t: Thresholds)
    ensures Decide(f, t).tier == T3 <==> ForTheBest(f, t)
    ensures Decide(f, t).tier == T2 <==> !ForTheBest(f, t) && ForStrong(f, t)
    ensures Decide(f, t).tier == T0 <==> !ForTheBest(f, t) && !ForStrong(f, t) && ForCheap(f, t)
    ensures Decide(f, t).tier == T1 <==> !ForTheBest(f, t) && !ForStrong(f, t) && !ForCheap(f, t)
  {
  }

  /** What marks a request for the strong tier; marks for code and logs are never given, these have gone higher. */
  function Marks(f: PromptFeatures): seq<string> {
    (if f.hasMath then ["math_detected"] else []) + (if f.hasAnalysis then ["analysis_detected"] else []) +
    (if f.strictFormat then ["strict_format"] else []) + (if f.hasStrictConstraints then ["strict_constraints"] else [])
  }

  predicate FollowsUp(f: PromptFeatures) {
    f.isFollowUp && f.contextMessages > 0 &&
    (f.hasAnalysis || f.needsAccuracy || f.needsLatestInfo || f.hasFactual)
  }

  /** The reason that comes with each tier. */
  lemma ReasonsTell(f: PromptFeatures, t: Thresholds)
    ensures var d := Decide(f, t);
            match d.tier
            case T0 => d.reasons == ["short_simple_rewrite"]
            case T1 => d.reasons == ["default_t1"]
            case T2 =>
              d.reasons == if FollowsUp(f) then ["follow_up_needs_depth"]
                           else if Marks(f) != [] then Marks(f)
                           else if Large(f, t) then ["large_context_or_prompt"]
                           else ["high_accuracy_factual"]
            case T3 =>
              d.reasons ==
              [if f.needsAccuracy && f.hasFactual && f.strictFormat && f.tokenEstimate >= t.ultraPromptTokens then
                 "ultra_strict_high_accuracy"
               else if f.hasCode || f.hasLogsStacktrace || f.intent == Code then "coding_priority_models"
               else if (f.hasMath || f.hasAnalysis) && (f.needsAccuracy || f.strictFormat || Large(f, t)) then
                 "advanced_reasoning"
               else "strict_high_quality_output"]
  {
    var none: seq<string> := [];
    assert none + (if f.hasMath then ["math_detected"] else []) == if f.hasMath then ["math_detected"] else [];
    assert forall r: seq<string> :: r + none == r;
    if Decide(f, t).tier == T2 && !FollowsUp(f) && Marks(f) != [] {
      assert Decide(f, t).reasons == Marks(f);
    }
  }
}
