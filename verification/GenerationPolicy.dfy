/** Output ceilings, the retry ladder and reasoning controls (orchestrator/generation_policy.py). */
module GenerationPolicy {
  import opened Prelude
  import opened Sequences

  datatype AnyEffort = NoEffort | Minimal | Low | Medium | High | XHigh | Max | Unlisted(name: string)

  /** An effort as configured or requested; `Unlisted` is for names outside the effort order. */
  type Effort = e: AnyEffort |
    e.Unlisted? ==> e.name !in ["", "none", "minimal", "low", "medium", "high", "xhigh", "max"]
    witness NoEffort

  /** The text of an effort, as it is configured and sent. */
  function EffortName(e: Effort): string {
    match e
    case NoEffort => "none"
    case Minimal => "minimal"
    case Low => "low"
    case Medium => "medium"
    case High => "high"
    case XHigh => "xhigh"
    case Max => "max"
    case Unlisted(name) => name
  }

  /** The first n efforts of the effort order. */
  function EffortOrder(n: nat): seq<Effort>
    requires n <= 6
  {
    [Minimal, Low, Medium, High, XHigh, Max][..n]
  }

  function EffortAt(rank: nat): Effort
    requires rank < 6
  {
    match rank
    case 0 => Minimal
    case 1 => Low
    case 2 => Medium
    case 3 => High
    case 4 => XHigh
    case _ => Max
  }

  predicate Listed(e: Effort) {
    !e.NoEffort? && !e.Unlisted?
  }

  /** Position in the effort order; anything outside it ranks first. */
  function Rank(e: Effort): nat {
    match e
    case Low => 1
    case Medium => 2
    case High => 3
    case XHigh => 4
    case Max => 5
    case _ => 0
  }

  datatype Provider = DeepSeek | Claude | Gemini | OpenAI | Other

  datatype Switch = Auto | Off | On | Unknown

  /** The effective mode is the text sent to the provider. */
  type Mode = string

  /** Registry facts about one model; `modes` and `defaultMode` are normalised names. */
  datatype Candidate = Candidate(
    provider: Provider,
    native: Option<int>,
    contextLimit: int,
    modes: seq<string>,
    efforts: seq<Effort>,
    defaultMode: Option<string>,
    canDisable: bool,
    taggedReasoning: bool,
    isGpt5: bool,
    isOpus5: bool)

  datatype Profile = Profile(ceiling: int, effort: Effort)

  datatype Generation = Generation(profile: Option<string>, explicitMax: Option<int>, mode: Switch,
                                   effort: Option<Effort>)

  /** Everything fixed for one model and one input; `auto` is what the automatic policy picks for them. */
  datatype Setting = Setting(
    candidate: Candidate,
    profiles: map<string, Profile>,
    operational: Option<int>,
    margin: int,
    estimatedInput: int,
    auto: Profile)

  datatype Reasoning = Reasoning(mode: Mode, effort: Effort)

  datatype Resolution = Resolution(profile: string, requested: int, effective: int, reasoning: Reasoning,
                                   retryOverride: Option<string>)

  datatype PolicyError = Exclusive | NotPositive | UnknownProfile | ExceedsMaximum | ReasoningUnsupported

  const PROFILE_ORDER: seq<string> := ["quick", "balanced", "deep", "extended"]
  const AUTO := "auto"
  const CUSTOM := "custom"

  // -- the retry ladder ------------------------------------------------------------------------------

  function RetryProfile(r: Resolution): Option<string> {
    if r.profile == AUTO then r.retryOverride
    else if r.profile == PROFILE_ORDER[0] then Some(PROFILE_ORDER[1])
    else if r.profile == PROFILE_ORDER[1] then Some(PROFILE_ORDER[2])
    else if r.profile == PROFILE_ORDER[2] then Some(PROFILE_ORDER[3])
    else None
  }

  function AutoRetryProfile(requested: int, profiles: map<string, Profile>): Option<string>
    requires "deep" in profiles && "extended" in profiles
  {
    if requested < profiles["deep"].ceiling then Some("deep")
    else if requested < profiles["extended"].ceiling then Some("extended")
    else None
  }

  /** The four standard profiles exist, with strictly rising ceilings. */
  predicate WellFormed(s: Setting) {
    && (forall p :: p in PROFILE_ORDER ==> p in s.profiles)
    && AUTO !in s.profiles && CUSTOM !in s.profiles
    && 0 < s.profiles["quick"].ceiling < s.profiles["balanced"].ceiling
    && s.profiles["balanced"].ceiling < s.profiles["deep"].ceiling < s.profiles["extended"].ceiling
    && 0 < s.auto.ceiling
  }

  // -- ceilings --------------------------------------------------------------------------------------

  /** Python's `x or y` on an optional number. */
  function OrElse(x: Option<int>, y: int): int {
    if x.Some? && x.value != 0 then x.value else y
  }

  function RemainingContext(s: Setting): int {
    var left := s.candidate.contextLimit - (if s.estimatedInput < 0 then 0 else s.estimatedInput) - s.margin;
    if left < 1 then 1 else left
  }

  function Min(a: int, b: int): int {
    if a <= b then a else b
  }

  function AllowedMax(s: Setting, requested: int): int {
    var native := OrElse(s.candidate.native, requested);
    Min(native, Min(OrElse(s.operational, native), RemainingContext(s)))
  }

  function ModeOf(g: Option<Generation>): Switch {
    if g.Some? then g.value.mode else Auto
  }

  function EffortOf(g: Option<Generation>): Option<Effort> {
    if g.Some? then g.value.effort else None
  }

  /** The profile, its ceiling and its default effort, before the model's own limits. */
  function Wanted(s: Setting, g: Option<Generation>, legacy: Option<int>): Result<(string, Profile), PolicyError> {
    var name := if g.Some? then g.value.profile else None;
    var explicitMax := if g.Some? then g.value.explicitMax else None;
    var named := name.Some? && name.value != "";
    if named && explicitMax.Some? then Err(Exclusive)
    else if g.Some? && legacy.Some? then Err(Exclusive)
    else if explicitMax.Some? then
      if explicitMax.value <= 0 then Err(NotPositive) else Ok((CUSTOM, Profile(explicitMax.value, Medium)))
    else if legacy.Some? then
      if legacy.value <= 0 then Err(NotPositive) else Ok((CUSTOM, Profile(legacy.value, Medium)))
    else
      var p := if named then name.value else PROFILE_ORDER[0];
      if p == AUTO then Ok((AUTO, s.auto))
      else if p in s.profiles then Ok((p, s.profiles[p]))
      else Err(UnknownProfile)
  }

  function Resolve(s: Setting, g: Option<Generation>, legacy: Option<int>): Result<Resolution, PolicyError>
    requires WellFormed(s)
  {
    match Wanted(s, g, legacy)
    case Err(e) => Err(e)
    case Ok((profile, wanted)) =>
      if profile == CUSTOM && AllowedMax(s, wanted.ceiling) < wanted.ceiling then Err(ExceedsMaximum)
      else
        var reasoning := ResolveReasoningSpec(s.candidate, ModeOf(g), EffortOf(g), wanted.effort);
        if reasoning.None? then Err(ReasoningUnsupported)
        else
          Ok(Resolution(profile, wanted.ceiling, Min(wanted.ceiling, AllowedMax(s, wanted.ceiling)), reasoning.value,
                        if profile == AUTO then AutoRetryProfile(wanted.ceiling, s.profiles) else None))
  }

  // -- reasoning -------------------------------------------------------------------------------------

  predicate SupportsReasoning(c: Candidate) {
    if c.modes != [] then exists m :: m in c.modes && m != "none"
    else if c.provider == Claude then false
    else c.taggedReasoning || (c.provider == OpenAI && c.isGpt5)
  }

  function DefaultMode(c: Candidate, otherwise: string): string {
    if c.defaultMode.Some? && c.defaultMode.value != "" then c.defaultMode.value else otherwise
  }

  /** The provider's form of an effort, where `off` says that OpenAI reasoning is switched off. */
  function NormalisedEffort(c: Candidate, off: bool, e: Effort): Effort {
    match c.provider
    case DeepSeek => if e == XHigh || e == Max then Max else High
    case Gemini => if e == XHigh || e == Max then High else e
    case OpenAI => if off then NoEffort else e
    case _ => e
  }

  /** The provider's mode; None where the source raises. */
  function EffectiveMode(c: Candidate, mode: Switch, effort: Effort): Option<Mode> {
    match c.provider
    case DeepSeek =>
      Some(if mode == On || (mode == Auto && DefaultMode(c, "thinking") != "none") then "thinking" else "none")
    case Claude =>
      if mode == Off || (mode == Auto && DefaultMode(c, "none") == "none") then
        if (effort == XHigh || effort == Max) && c.isOpus5 then None else Some("disabled")
      else if "adaptive" in c.modes then Some("adaptive")
      else None
    case Gemini =>
      if mode == Off && "none" !in c.modes then None else Some(if mode == Off then "none" else "thinking")
    case OpenAI => Some(if mode == Off then "none" else "standard")
    case Other =>
      Some(if mode == Off then "none" else DefaultMode(c, EffortName(effort)))
  }

  /** The greatest configured effort of rank at most r. */
  function Greatest(efforts: seq<Effort>, r: int): Option<Effort>
    requires r < 6
    decreases r + 1
  {
    if r < 0 then None
    else if EffortAt(r) in efforts then Some(EffortAt(r))
    else Greatest(efforts, r - 1)
  }

  function ResolveReasoningSpec(c: Candidate, mode: Switch, asked: Option<Effort>,
                                profileEffort: Effort): Option<Reasoning> {
    if mode == Unknown || (asked.Some? && !Listed(asked.value)) then None
    else if !SupportsReasoning(c) then
      if mode == On || (asked.Some? && asked.value != Minimal && asked.value != Low) then None
      else Some(Reasoning("off", NoEffort))
    else if mode == Off && !c.canDisable then None
    else
      var wanted := if asked.None? then profileEffort else asked.value;
      var effective := EffectiveMode(c, mode, wanted);
      var effort := NormalisedEffort(c, mode == Off, wanted);
      var fitted := Fitted(c.efforts, asked.Some?, effort);
      if effective.None? || fitted.None? then None else Some(Reasoning(effective.value, fitted.value))
  }

  /** An effort the model has not configured: refused when asked for, otherwise lowered. */
  function Fitted(efforts: seq<Effort>, asked: bool, effort: Effort): Option<Effort> {
    if efforts == [] || effort in efforts || effort == NoEffort then Some(effort)
    else if asked then None
    else Greatest(efforts, Rank(effort))
  }

  function Among(efforts: seq<Effort>): Effort -> bool {
    (e: Effort) => e in efforts
  }

  function AtMost(r: int): Effort -> bool {
    (e: Effort) => Rank(e) <= r
  }

  /** The provider branches reassign `mode` and `effort` in turn, then the effort is fitted to the configured ones. */
  method ResolveReasoning(c: Candidate, requestedMode: Switch, asked: Option<Effort>, profileEffort: Effort)
    returns (r: Option<Reasoning>)
    ensures r == ResolveReasoningSpec(c, requestedMode, asked, profileEffort)
  {
    if requestedMode == Unknown { return None; }
    if asked.Some? && !Listed(asked.value) { return None; }
    if !SupportsReasoning(c) {
      if requestedMode == On || (asked.Some? && asked.value != Minimal && asked.value != Low) { return None; }
      return Some(Reasoning("off", NoEffort));
    }
    if requestedMode == Off && !c.canDisable { return None; }
    var effort := if asked.None? then profileEffort else asked.value;
    var mode := requestedMode;
    var effective: Mode;
    match c.provider {
      case DeepSeek =>
        if mode == Auto { mode := if DefaultMode(c, "thinking") != "none" then On else Off; }
        effective := if mode == On then "thinking" else "none";
        effort := if effort == XHigh || effort == Max then Max else High;
      case Claude =>
        if mode == Off || (mode == Auto && DefaultMode(c, "none") == "none") {
          effective := "disabled";
        } else if "adaptive" in c.modes {
          effective := "adaptive";
        } else {
          return None;
        }
        if effective == "disabled" && (effort == XHigh || effort == Max) && c.isOpus5 { return None; }
      case Gemini =>
        if mode == Off && "none" !in c.modes { return None; }
        effective := if mode == Off then "none" else "thinking";
        if effort == XHigh || effort == Max { effort := High; }
      case OpenAI =>
        effective := if mode == Off then "none" else "standard";
        if effective == "none" { effort := NoEffort; }
      case Other =>
        effective := if mode == Off then "none" else DefaultMode(c, EffortName(effort));
    }
    var fitted := FitEffort(c.efforts, asked.Some?, effort);
    if fitted.None? { return None; }
    r := Some(Reasoning(effective, fitted.value));
  }

  method FitEffort(efforts: seq<Effort>, asked: bool, effort: Effort) returns (r: Option<Effort>)
    ensures r == Fitted(efforts, asked, effort)
  {
    if efforts != [] && effort !in efforts && effort != NoEffort {
      if asked { return None; }
      var supported := Filter(EffortOrder(6), Among(efforts));
      var lower := Filter(supported, AtMost(Rank(effort)));
      LastOfLowerIsGreatest(efforts, Rank(effort), 6);
      if lower == [] { return None; }
      return Some(lower[|lower| - 1]);
    }
    r := Some(effort);
  }

  function Lower(order: seq<Effort>, efforts: seq<Effort>, r: int): seq<Effort> {
    Filter(Filter(order, Among(efforts)), AtMost(r))
  }

  lemma LowerOfOneMore(order: seq<Effort>, x: Effort, efforts: seq<Effort>, r: int)
    ensures Lower(order + [x], efforts, r) ==
            Lower(order, efforts, r) + (if x in efforts && Rank(x) <= r then [x] else [])
  {
    FilterConcat(order, [x], Among(efforts));
    var inner := Filter([x], Among(efforts));
    assert inner == if x in efforts then [x] else [];
    FilterConcat(Filter(order, Among(efforts)), inner, AtMost(r));
    hide Rank;
    assert Filter(inner, AtMost(r)) == if x in efforts && Rank(x) <= r then [x] else [];
  }

  lemma {:induction false} LastOfLowerIsGreatest(efforts: seq<Effort>, r: nat, n: nat)
    requires r < 6 && n <= 6
    ensures var lower := Lower(EffortOrder(n), efforts, r);
            Greatest(efforts, Min(r, n - 1)) == if lower == [] then None else Some(lower[|lower| - 1])
  {
    hide EffortOrder, EffortAt, Rank, Lower;
    if n == 0 {
      NoneLower(efforts, r);
    } else {
      OrderGrows(n);
      LastOfLowerIsGreatest(efforts, r, n - 1);
      LowerOfOneMore(EffortOrder(n - 1), EffortAt(n - 1), efforts, r);
    }
  }

  lemma NoneLower(efforts: seq<Effort>, r: int)
    ensures Lower(EffortOrder(0), efforts, r) == []
  {
  }

  lemma OrderGrows(n: nat)
    requires 0 < n <= 6
    ensures EffortOrder(n) == EffortOrder(n - 1) + [EffortAt(n - 1)] && Rank(EffortAt(n - 1)) == n - 1
  {
  }

  // -- what the reasoning controls mean --------------------------------------------------------------

  lemma {:induction false} GreatestIsGreatest(efforts: seq<Effort>, r: int)
    requires r < 6
    ensures Greatest(efforts, r).Some? ==>
              Greatest(efforts, r).value in efforts && Listed(Greatest(efforts, r).value) &&
                Rank(Greatest(efforts, r).value) <= r
    ensures forall e :: e in efforts && Listed(e) && Rank(e) <= r ==>
              Greatest(efforts, r).Some? && Rank(e) <= Rank(Greatest(efforts, r).value)
  {
  }

  /**
    With efforts configured, the one sent is a configured one (or none), an explicit request is sent as the provider
    writes it, and a default is only ever lowered, to the greatest configured effort below it.
   */
  lemma EffortIsSupported(c: Candidate, mode: Switch, asked: Option<Effort>, profileEffort: Effort)
    requires SupportsReasoning(c) && ResolveReasoningSpec(c, mode, asked, profileEffort).Some?
    ensures var wanted := NormalisedEffort(c, mode == Off, if asked.None? then profileEffort else asked.value);
            var sent := ResolveReasoningSpec(c, mode, asked, profileEffort).value.effort;
            && (c.efforts != [] ==> sent in c.efforts || sent == NoEffort)
            && (asked.Some? || c.efforts == [] ==> sent == wanted)
            && (sent != wanted ==> wanted !in c.efforts && Rank(sent) <= Rank(wanted))
            && (sent != wanted ==> forall e :: e in c.efforts && Listed(e) && Rank(e) <= Rank(wanted) ==>
                  Rank(e) <= Rank(sent))
  {
    var wanted := NormalisedEffort(c, mode == Off, if asked.None? then profileEffort else asked.value);
    GreatestIsGreatest(c.efforts, Rank(wanted));
  }

  /** The texts that mean "no reasoning". */
  predicate SaysOff(text: string) {
    text == "none" || text == "off" || text == "disabled"
  }

  /**
    "Off" is always honoured. "On" is, except exactly by a provider without rules of its own whose default mode, or
    for want of one whose wanted effort, is itself a way of saying no.
   */
  lemma SwitchIsHonoured(c: Candidate, mode: Switch, asked: Option<Effort>, profileEffort: Effort)
    requires ResolveReasoningSpec(c, mode, asked, profileEffort).Some?
    ensures var sent := ResolveReasoningSpec(c, mode, asked, profileEffort).value.mode;
            var wanted := if asked.None? then profileEffort else asked.value;
            && (mode == Off ==> SaysOff(sent))
            && (mode == On ==> (SaysOff(sent) <==> c.provider == Other && SaysOff(DefaultMode(c, EffortName(wanted)))))
  {
  }

  function PlainModel(defaultMode: Option<string>): Candidate {
    Candidate(Other, None, 8192, [], [], defaultMode, true, true, false, false)
  }

  /** A model of such a provider, asked to reason: told "none" by its default mode, or by the profile's effort. */
  lemma OnCanBeIgnored()
    ensures ResolveReasoningSpec(PlainModel(Some("none")), On, None, High) == Some(Reasoning("none", High))
    ensures ResolveReasoningSpec(PlainModel(Some("off")), On, None, High) == Some(Reasoning("off", High))
    ensures ResolveReasoningSpec(PlainModel(None), On, None, NoEffort) == Some(Reasoning("none", NoEffort))
    ensures ResolveReasoningSpec(PlainModel(None), On, Some(High), NoEffort) == Some(Reasoning("high", High))
  {
  }

  // -- the ladder ------------------------------------------------------------------------------------

  lemma EffectiveIsMonotone(s: Setting, a: int, b: int)
    requires a <= b
    ensures Min(a, AllowedMax(s, a)) <= Min(b, AllowedMax(s, b))
  {
  }

  /** A custom ceiling is granted in full or refused; a profile's is cut to what the model and context allow. */
  lemma CeilingIsGrantedOrCut(s: Setting, g: Option<Generation>, legacy: Option<int>)
    requires WellFormed(s) && Resolve(s, g, legacy).Ok?
    ensures var r := Resolve(s, g, legacy).value;
            && r.effective <= r.requested && r.effective <= RemainingContext(s)
            && (s.candidate.native.Some? && s.candidate.native.value > 0 ==> r.effective <= s.candidate.native.value)
            && (s.operational.Some? && s.operational.value > 0 ==> r.effective <= s.operational.value)
            && (r.profile == CUSTOM ==> r.effective == r.requested && RetryProfile(r) == None)
  {
  }

  /** The same request for another profile. */
  function Retried(g: Option<Generation>, profile: string): Option<Generation> {
    Some(Generation(Some(profile), None, ModeOf(g), EffortOf(g)))
  }

  /** Claude Opus 5 refuses an effort of xhigh or max while reasoning is off. */
  predicate OpusRefuses(c: Candidate, mode: Switch, effort: Effort) {
    && c.provider == Claude && c.isOpus5 && (effort == XHigh || effort == Max)
    && (mode == Off || (mode == Auto && DefaultMode(c, "none") == "none"))
  }

  lemma HigherFitsHigher(efforts: seq<Effort>, low: Effort, high: Effort)
    requires Rank(low) <= Rank(high) && (low == NoEffort ==> high == NoEffort) && !low.Unlisted? && !high.Unlisted?
    requires Fitted(efforts, false, low).Some?
    ensures Fitted(efforts, false, high).Some? &&
            Rank(Fitted(efforts, false, low).value) <= Rank(Fitted(efforts, false, high).value)
  {
    GreatestIsGreatest(efforts, Rank(low));
    GreatestIsGreatest(efforts, Rank(high));
    hide Greatest;
  }

  lemma NormalisedRises(c: Candidate, off: bool, low: Effort, high: Effort)
    requires Listed(low) && Listed(high) && Rank(low) <= Rank(high)
    ensures var a, b := NormalisedEffort(c, off, low), NormalisedEffort(c, off, high);
            Rank(a) <= Rank(b) && (a == NoEffort <==> b == NoEffort) && !a.Unlisted? && !b.Unlisted?
  {
  }

  lemma OnlyOpusRefuses(c: Candidate, mode: Switch, low: Effort, high: Effort)
    requires EffectiveMode(c, mode, low).Some?
    ensures EffectiveMode(c, mode, high).Some? <==> !OpusRefuses(c, mode, high)
  {
  }

  /**
    A request that resolves with one default effort resolves with any higher one, unless Opus 5 refuses it; never
    to less.
   */
  lemma HigherDefaultResolvesIff(c: Candidate, mode: Switch, asked: Option<Effort>, low: Effort, high: Effort)
    requires Listed(low) && Listed(high) && Rank(low) <= Rank(high)
    requires ResolveReasoningSpec(c, mode, asked, low).Some?
    ensures ResolveReasoningSpec(c, mode, asked, high).Some? <==>
            !(SupportsReasoning(c) && asked.None? && OpusRefuses(c, mode, high))
    ensures ResolveReasoningSpec(c, mode, asked, high).Some? ==>
              Rank(ResolveReasoningSpec(c, mode, asked, low).value.effort) <=
              Rank(ResolveReasoningSpec(c, mode, asked, high).value.effort)
  {
    if asked.None? && SupportsReasoning(c) {
      var a, b := NormalisedEffort(c, mode == Off, low), NormalisedEffort(c, mode == Off, high);
      NormalisedRises(c, mode == Off, low, high);
      hide NormalisedEffort, EffectiveMode, OpusRefuses, Fitted, SupportsReasoning, DefaultMode, Rank, Listed;
      OnlyOpusRefuses(c, mode, low, high);
      HigherFitsHigher(c.efforts, a, b);
    }
  }

  /** The reasoning effort a resolved request starts from. */
  function DefaultEffort(s: Setting, r: Resolution): Effort {
    if r.profile == AUTO then s.auto.effort else if r.profile in s.profiles then s.profiles[r.profile].effort
      else Medium
  }

  lemma RetryWants(s: Setting, g: Option<Generation>, legacy: Option<int>, r: Resolution)
    requires WellFormed(s) && Resolve(s, g, legacy) == Ok(r) && RetryProfile(r).Some?
    ensures var next := RetryProfile(r).value;
            && next in s.profiles && r.requested < s.profiles[next].ceiling
            && Wanted(s, Retried(g, next), None) == Ok((next, s.profiles[next])) && next != AUTO && next != CUSTOM
            && ResolveReasoningSpec(s.candidate, ModeOf(g), EffortOf(g), DefaultEffort(s, r)) == Some(r.reasoning)
  {
  }

  /**
    A retry asks for strictly more and never gets less. It resolves, without losing effort, exactly when Opus 5
    does not refuse the next profile's default effort.
   */
  lemma RetryClimbs(s: Setting, g: Option<Generation>, legacy: Option<int>, r: Resolution)
    requires WellFormed(s) && Resolve(s, g, legacy) == Ok(r) && RetryProfile(r).Some?
    requires var next := s.profiles[RetryProfile(r).value].effort;
             Listed(DefaultEffort(s, r)) && Listed(next) && Rank(DefaultEffort(s, r)) <= Rank(next)
    ensures var next := RetryProfile(r).value;
            var again := Resolve(s, Retried(g, next), None);
            && (again.Ok? <==> !(SupportsReasoning(s.candidate) && EffortOf(g).None? &&
                                 OpusRefuses(s.candidate, ModeOf(g), s.profiles[next].effort)))
            && (again.Ok? ==> again.value.profile == next && r.requested < again.value.requested &&
                              r.effective <= again.value.effective &&
                                Rank(r.reasoning.effort) <= Rank(again.value.reasoning.effort))
  {
    var next := RetryProfile(r).value;
    RetryWants(s, g, legacy, r);
    EffectiveIsMonotone(s, r.requested, s.profiles[next].ceiling);
    HigherDefaultResolvesIff(s.candidate, ModeOf(g), EffortOf(g), DefaultEffort(s, r), s.profiles[next].effort);
    hide ResolveReasoningSpec;
  }

  /** Each resolution is the retry of the one before, whatever the profiles' default efforts are. */
  ghost predicate IsLadder(s: Setting, g: Option<Generation>, legacy: Option<int>, rs: seq<Resolution>)
    requires WellFormed(s)
    decreases |rs|
  {
    rs != [] ==>
      && Resolve(s, g, legacy) == Ok(rs[0])
      && (|rs| > 1 ==> RetryProfile(rs[0]).Some? && IsLadder(s, Retried(g, RetryProfile(rs[0]).value), None, rs[1..]))
  }

  function Level(profile: string): nat {
    if profile == PROFILE_ORDER[0] then 0
    else if profile == PROFILE_ORDER[1] || profile == AUTO then 1
    else if profile == PROFILE_ORDER[2] then 2
    else 3
  }

  lemma LadderStep(s: Setting, g: Option<Generation>, legacy: Option<int>, r: Resolution, again: Resolution)
    requires WellFormed(s) && Resolve(s, g, legacy) == Ok(r) && RetryProfile(r).Some?
    requires Resolve(s, Retried(g, RetryProfile(r).value), None) == Ok(again)
    ensures r.requested < again.requested && r.effective <= again.effective && Level(r.profile) < Level(again.profile)
  {
    RetryWants(s, g, legacy, r);
    EffectiveIsMonotone(s, r.requested, again.requested);
    hide ResolveReasoningSpec;
  }

  /** From any start, at most three retries, each asking for strictly more and none getting less. */
  lemma {:induction false} LadderClimbsAndEnds(s: Setting, g: Option<Generation>, legacy: Option<int>,
                                               rs: seq<Resolution>)
    requires WellFormed(s) && IsLadder(s, g, legacy, rs)
    ensures |rs| <= 4 && (rs != [] ==> |rs| <= 4 - Level(rs[0].profile))
    ensures forall i, j :: 0 <= i < j < |rs| ==> rs[i].requested < rs[j].requested && rs[i].effective <= rs[j].effective
    decreases |rs|
  {
    hide Resolve, RetryProfile, WellFormed;
    if |rs| > 1 {
      var next := Retried(g, RetryProfile(rs[0]).value);
      LadderClimbsAndEnds(s, next, None, rs[1..]);
      LadderStep(s, g, legacy, rs[0], rs[1]);
      assert rs == [rs[0]] + rs[1..];
    }
  }
}
