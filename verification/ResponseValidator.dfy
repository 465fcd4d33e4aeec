/** How one provider response is judged (orchestrator/response_validator.py). */
module ResponseValidator {
  import opened Prelude
  import opened Routing
  import opened FallbackManager
  import opened TierDecider

  datatype ErrorCode = NoCode | TimeoutCode | RateLimitCode | ProviderErrorCode | OtherCode

  /**
    A response as routing sees it. `looksLikeRefusal` and `isJson` are the outcomes of the text
    heuristics; `fallbackFrom` and `attempt` are stamped on by the attempt loop.
   */
  datatype Response = Response(
    source: ModelKey,
    isError: bool,
    errorCode: ErrorCode,
    looksLikeRefusal: bool,
    isJson: bool,
    stoppedByLength: bool,
    textLength: Option<nat>,
    attempt: nat,
    fallbackFrom: Option<ModelKey>)

  datatype Limits = Limits(shortSimpleChars: int, shortComplexChars: int)

  function Validate(f: PromptFeatures, c: Constraints, limits: Limits, r: Response): (reason: Reason)
    ensures reason == Valid ==> !r.isError
  {
    var strict := c.strictFormat || c.jsonOnly || f.strictFormat || f.hasStrictConstraints;
    var demanding := f.hasAnalysis || f.hasCode || strict;
    if r.isError then
      match r.errorCode
      case TimeoutCode => Timeout
      case RateLimitCode => RateLimit
      case _ => ProviderError
    else if r.looksLikeRefusal then Refusal
    else if c.jsonOnly && !r.isJson then FormatViolation
    else if r.stoppedByLength && demanding then Truncated
    else if r.textLength.Some? &&
            r.textLength.value < (if demanding then limits.shortComplexChars else limits.shortSimpleChars) then TooShort
    else Valid
  }

  /** The later request asks for at least what the earlier one does. */
  predicate StricterThan(g: PromptFeatures, d: Constraints, f: PromptFeatures, c: Constraints) {
    AsksAtLeast(g, f) && (c.strictFormat ==> d.strictFormat) && (c.jsonOnly ==> d.jsonOnly)
  }

  /** A stricter request accepts nothing the laxer one rejects. */
  ghost predicate StrictnessOnlyRejects(limits: Limits) {
    forall f, c, g, d, r ::
      StricterThan(g, d, f, c) && Validate(g, d, limits, r) == Valid ==> Validate(f, c, limits, r) == Valid
  }

  /** Asking for more only ever rejects more, exactly when demanding requests have the higher length limit. */
  lemma StrictnessOnlyRejectsIff(limits: Limits)
    ensures StrictnessOnlyRejects(limits) <==>
            limits.shortSimpleChars <= 0 || limits.shortSimpleChars <= limits.shortComplexChars
  {
    if limits.shortSimpleChars > 0 && limits.shortComplexChars < limits.shortSimpleChars {
      var f := PromptFeatures(0, 0, 0, false, false, false, false, false, false, false, false, false, General, false);
      var c := Constraints(None, None, None, None, None, None, None, false, false);
      var d := c.(strictFormat := true);
      var length := limits.shortSimpleChars - 1;
      var r := Response(ModelKey("", ""), false, NoCode, false, true, false, Some(length), 0, None);
      assert StricterThan(f, d, f, c) && Validate(f, d, limits, r) == Valid && Validate(f, c, limits, r) == TooShort;
    }
  }

  // -- each verdict, whatever is looked at first -----------------------------------------------------

  /** The request wants a form to be kept. */
  predicate WantsForm(f: PromptFeatures, c: Constraints) {
    c.jsonOnly || c.strictFormat || f.strictFormat || f.hasStrictConstraints
  }

  predicate Demanding(f: PromptFeatures, c: Constraints) {
    f.hasCode || f.hasAnalysis || WantsForm(f, c)
  }

  /** No text is too short for want of one. */
  predicate Short(f: PromptFeatures, c: Constraints, limits: Limits, r: Response) {
    r.textLength.Some? && if Demanding(f, c) then r.textLength.value < limits.shortComplexChars
                          else r.textLength.value < limits.shortSimpleChars
  }

  predicate Ragged(f: PromptFeatures, c: Constraints, r: Response) {
    r.stoppedByLength && Demanding(f, c)
  }

  predicate Misformed(c: Constraints, r: Response) {
    c.jsonOnly && !r.isJson
  }

  /** Errors are named by their code; answers by the first fault among refusal, form, cut and length. */
  lemma VerdictIff(f: PromptFeatures, c: Constraints, limits: Limits, r: Response)
    ensures var v := Validate(f, c, limits, r);
            && (v == Timeout <==> r.isError && r.errorCode == TimeoutCode)
            && (v == RateLimit <==> r.isError && r.errorCode == RateLimitCode)
            && (v == ProviderError <==> r.isError && r.errorCode != TimeoutCode && r.errorCode != RateLimitCode)
            && (v == Refusal <==> !r.isError && r.looksLikeRefusal)
            && (v == FormatViolation <==> !r.isError && !r.looksLikeRefusal && Misformed(c, r))
            && (v == Truncated <==> !r.isError && !r.looksLikeRefusal && !Misformed(c, r) && Ragged(f, c, r))
            && (v == TooShort <==>
                  !r.isError && !r.looksLikeRefusal && !Misformed(c, r) && !Ragged(f, c, r) && Short(f, c, limits, r))
            && (v == Valid <==>
                  !r.isError && !r.looksLikeRefusal && !Misformed(c, r) && !Ragged(f, c, r) && !Short(f, c, limits, r))
  {
  }
}
