/** What a generation request is answered with, setting by setting (orchestrator/generation_policy.py). */
module GenerationOutcomes {
  import opened Prelude
  import opened GenerationPolicy

  // -- reasoning -------------------------------------------------------------------------------------

  /** The mode the registry configures, where it says anything. */
  predicate SaysByDefault(c: Candidate, text: string) {
    c.defaultMode == Some(text) && text != ""
  }

  predicate SilentByDefault(c: Candidate) {
    c.defaultMode.None? || c.defaultMode.value == ""
  }

  /** Configured modes decide; without any, Claude models do not reason, others do if tagged, GPT-5 models anyway. */
  predicate CanReason(c: Candidate) {
    if c.modes == [] then c.provider != Claude && (c.taggedReasoning || (c.isGpt5 && c.provider == OpenAI))
    else exists i :: 0 <= i < |c.modes| && c.modes[i] != "none"
  }

  lemma CanReasonIff(c: Candidate)
    ensures SupportsReasoning(c) <==> CanReason(c)
  {
    if c.modes != [] && SupportsReasoning(c) {
      var m :| m in c.modes && m != "none";
      var i :| 0 <= i < |c.modes| && c.modes[i] == m;
    }
    if c.modes != [] && CanReason(c) {
      var i :| 0 <= i < |c.modes| && c.modes[i] != "none";
      assert c.modes[i] in c.modes;
    }
  }

  /** The mode sent, by provider and switch. */
  lemma ModeSent(c: Candidate, mode: Switch, asked: Option<Effort>, profileEffort: Effort)
    requires CanReason(c) && ResolveReasoningSpec(c, mode, asked, profileEffort).Some?
    ensures var sent := ResolveReasoningSpec(c, mode, asked, profileEffort).value.mode;
            match c.provider
            case DeepSeek =>
              sent == if mode == On || (mode == Auto && !SaysByDefault(c, "none")) then "thinking" else "none"
            case Claude =>
              var on := mode == On || (mode == Auto && !SaysByDefault(c, "none") && !SilentByDefault(c));
              sent == if on then "adaptive" else "disabled"
            case Gemini => sent == if mode == Off then "none" else "thinking"
            case OpenAI => sent == if mode == Off then "none" else "standard"
            case Other =>
              if mode == Off then sent == "none"
              else if SilentByDefault(c) then
                sent == EffortName(if asked.None? then profileEffort else asked.value)
              else SaysByDefault(c, sent)
  {
    CanReasonIff(c);
    assert "thinking" != "none" by { assert "thinking"[0] != "none"[0]; }
    hide CanReason, SupportsReasoning, Fitted;
  }

  /** The provider's own names for an effort: DeepSeek has two, Gemini none above "high", OpenAI none when off. */
  lemma EffortInTheProvidersTerms(c: Candidate, off: bool, e: Effort)
    ensures var sent := NormalisedEffort(c, off, e);
            match c.provider
            case DeepSeek => (sent == Max <==> Rank(e) >= 4) && (sent == High <==> Rank(e) < 4)
            case Gemini => if Rank(e) > 3 then sent == High else sent == e
            case OpenAI => sent == if off then NoEffort else e
            case Claude => sent == e
            case Other => sent == e
  {
  }

  /** Every name has its rank in the order, from "minimal" to "max". */
  lemma RanksAreNamed(e: Effort)
    requires Listed(e)
    ensures ["minimal", "low", "medium", "high", "xhigh", "max"][Rank(e)] == EffortName(e)
    ensures EffortAt(Rank(e)) == e
  {
  }

  /** The provider cannot be told so: what is off stays on, or what is on stays off. */
  predicate ModeRefused(c: Candidate, mode: Switch, effort: Effort) {
    || (mode == Off && !c.canDisable)
    || (c.provider == Gemini && mode == Off && "none" !in c.modes)
    || (c.provider == Claude &&
        var off := mode == Off || (mode == Auto && (SaysByDefault(c, "none") || SilentByDefault(c)));
        if off then c.isOpus5 && (effort == XHigh || effort == Max) else "adaptive" !in c.modes)
  }

  /** No configured effort will do: the one asked for is not among them, or none is low enough. */
  predicate EffortRefused(c: Candidate, asked: bool, effort: Effort) {
    c.efforts != [] && effort != NoEffort && effort !in c.efforts &&
    (asked || forall e :: e in c.efforts && Listed(e) ==> Rank(e) > Rank(effort))
  }

  lemma ReasoningRefusedIff(c: Candidate, mode: Switch, asked: Option<Effort>, profileEffort: Effort)
    ensures ResolveReasoningSpec(c, mode, asked, profileEffort).None? <==>
            || mode == Unknown || (asked.Some? && !Listed(asked.value))
            || if CanReason(c) then
                 var wanted := if asked.Some? then asked.value else profileEffort;
                 ModeRefused(c, mode, wanted) ||
                 EffortRefused(c, asked.Some?, NormalisedEffort(c, mode == Off, wanted))
               else mode == On || (asked.Some? && Rank(asked.value) > 1)
    ensures !CanReason(c) && ResolveReasoningSpec(c, mode, asked, profileEffort).Some? ==>
              ResolveReasoningSpec(c, mode, asked, profileEffort) == Some(Reasoning("off", NoEffort))
  {
    CanReasonIff(c);
    var wanted := if asked.Some? then asked.value else profileEffort;
    var effort := NormalisedEffort(c, mode == Off, wanted);
    GreatestIsGreatest(c.efforts, Rank(effort));
    assert "thinking" != "none" by { assert "thinking"[0] != "none"[0]; }
    hide CanReason, SupportsReasoning, Greatest, NormalisedEffort;
  }

  // -- ceilings --------------------------------------------------------------------------------------

  /** The context left for the answer: at least one token. */
  function Space(s: Setting): int {
    var input := if s.estimatedInput > 0 then s.estimatedInput else 0;
    if s.candidate.contextLimit > input + s.margin then s.candidate.contextLimit - input - s.margin else 1
  }

  predicate Limits(limit: Option<int>) {
    limit.Some? && limit.value != 0
  }

  /** Within the model's, the operator's and the context's limit. */
  predicate WithinLimits(s: Setting, n: int) {
    && (Limits(s.candidate.native) ==> n <= s.candidate.native.value)
    && (Limits(s.operational) ==> n <= s.operational.value)
    && n <= Space(s)
  }

  /** The ceiling granted is the greatest that neither the request nor a limit forbids. */
  lemma CeilingIsTheGreatest(s: Setting, g: Option<Generation>, legacy: Option<int>)
    requires WellFormed(s) && Resolve(s, g, legacy).Ok?
    ensures var r := Resolve(s, g, legacy).value;
            && r.effective <= r.requested && WithinLimits(s, r.effective)
            && forall n :: n <= r.requested && WithinLimits(s, n) ==> n <= r.effective
  {
    var r := Resolve(s, g, legacy).value;
    assert r.effective == Min(r.requested, AllowedMax(s, r.requested));
    assert RemainingContext(s) == Space(s);
    hide Resolve, WellFormed, RemainingContext, Space;
  }

  /** What the request names, the settings call "quick" for want of anything. */
  lemma WantedCeiling(s: Setting, g: Option<Generation>, legacy: Option<int>, r: Resolution)
    requires WellFormed(s) && Resolve(s, g, legacy) == Ok(r)
    ensures var own := if g.Some? then g.value.explicitMax else legacy;
            var name := if g.Some? && g.value.profile.Some? && g.value.profile.value != "" then g.value.profile.value
                        else "quick";
            if own.Some? then r.profile == "custom" && r.requested == own.value && r.effective == own.value
            else r.profile == name && r.requested == if name == "auto" then s.auto.ceiling else s.profiles[name].ceiling
    ensures r.profile != "auto" && r.profile != "custom" ==> r.profile in s.profiles
  {
    hide ResolveReasoningSpec, WellFormed;
    assert WellFormed(s) ==> CUSTOM !in s.profiles && AUTO !in s.profiles && PROFILE_ORDER[0] == "quick" by {
      CustomIsNoProfile(s);
    }
    assert CUSTOM != AUTO by { assert CUSTOM[0] != AUTO[0]; }
  }

  lemma CustomIsNoProfile(s: Setting)
    requires WellFormed(s)
    ensures CUSTOM !in s.profiles && AUTO !in s.profiles
  {
  }

  /** Both a profile and a ceiling, or both forms of request, exclude each other. */
  predicate Contradictory(g: Option<Generation>, legacy: Option<int>) {
    g.Some? && (legacy.Some? || (g.value.explicitMax.Some? && g.value.profile.Some? && g.value.profile.value != ""))
  }

  lemma ResolveRefusals(s: Setting, g: Option<Generation>, legacy: Option<int>)
    requires WellFormed(s)
    ensures var own := if g.Some? then g.value.explicitMax else legacy;
            var name := if g.Some? && g.value.profile.Some? && g.value.profile.value != "" then g.value.profile.value
                        else "quick";
            var result := Resolve(s, g, legacy);
            && (result == Err(Exclusive) <==> Contradictory(g, legacy))
            && (result == Err(NotPositive) <==> !Contradictory(g, legacy) && own.Some? && own.value <= 0)
            && (result == Err(UnknownProfile) <==>
                  !Contradictory(g, legacy) && own.None? && name != "auto" && name !in s.profiles)
            && (result == Err(ExceedsMaximum) <==>
                  !Contradictory(g, legacy) && own.Some? && own.value > 0 && !WithinLimits(s, own.value))
  {
    CustomIsNoProfile(s);
    assert CUSTOM != AUTO by { assert CUSTOM[0] != AUTO[0]; }
    assert PROFILE_ORDER[0] == "quick" && "quick" in PROFILE_ORDER;
    assert "quick" in s.profiles && CUSTOM != "quick";
    assert RemainingContext(s) == Space(s);
    hide ResolveReasoningSpec, WellFormed, RemainingContext, Space;
  }

  /** A named profile is retried with the next one; an automatic choice with the smaller that gives more. */
  lemma RetryIsTheNext(s: Setting, g: Option<Generation>, legacy: Option<int>, r: Resolution)
    requires WellFormed(s) && Resolve(s, g, legacy) == Ok(r)
    ensures r.profile == "quick" ==> RetryProfile(r) == Some("balanced")
    ensures r.profile == "balanced" ==> RetryProfile(r) == Some("deep")
    ensures r.profile == "deep" ==> RetryProfile(r) == Some("extended")
    ensures r.profile == "extended" || r.profile == "custom" ==> RetryProfile(r) == None
    ensures r.profile == "auto" ==>
              RetryProfile(r) == if r.requested < s.profiles["deep"].ceiling then Some("deep")
                                 else if r.requested < s.profiles["extended"].ceiling then Some("extended")
                                 else None
  {
    hide ResolveReasoningSpec;
    assert "auto" != "quick" && "auto" != "balanced" && "auto" != "deep" && "auto" != "extended" && "auto" != "custom";
    assert "custom" != "quick" && "custom" != "balanced" && "custom" != "deep";
    assert "extended" != "quick" && "extended" != "balanced" && "extended" != "deep";
    assert "deep" != "quick" && "deep" != "balanced" && "balanced" != "quick";
  }

  /** The reasoning asked for: the request's switch and effort, else "auto" and what the profile, or "medium", sets. */
  lemma ReasoningAskedFor(s: Setting, g: Option<Generation>, legacy: Option<int>, r: Resolution)
    requires WellFormed(s) && Resolve(s, g, legacy) == Ok(r)
    ensures r.profile == "auto" || r.profile == "custom" || r.profile in s.profiles
    ensures var mode := if g.Some? then g.value.mode else Auto;
            var asked := if g.Some? then g.value.effort else None;
            var effort := if r.profile == "auto" then s.auto.effort
                          else if r.profile == "custom" then Medium
                          else s.profiles[r.profile].effort;
            ResolveReasoningSpec(s.candidate, mode, asked, effort) == Some(r.reasoning)
  {
    CustomIsNoProfile(s);
    assert CUSTOM != AUTO by { assert CUSTOM[0] != AUTO[0]; }
    assert PROFILE_ORDER[0] == "quick" && "quick" in PROFILE_ORDER;
    hide ResolveReasoningSpec;
  }
}
