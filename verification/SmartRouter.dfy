/** Planning one smart run before any provider is called (orchestrator/smart_router.py). */
module SmartRouter {
  import opened Prelude
  import opened Sequences
  import opened Routing
  import opened TierDecider
  import opened ModelRegistry
  import opened ModelSelector

  /** A runtime message: who speaks, and its length in UTF-8 bytes. */
  datatype Message = Message(fromUser: bool, utf8Bytes: nat)

  /** Three bytes a token, rounded up; the empty text costs nothing. */
  function EstimateTokens(utf8Bytes: nat): nat { (utf8Bytes + 2) / 3 }

  function TotalTokens(messages: seq<Message>): nat {
    if messages == [] then 0
    else TotalTokens(messages[..|messages| - 1]) + EstimateTokens(messages[|messages| - 1].utf8Bytes)
  }

  function LastUserTokens(messages: seq<Message>): nat {
    if messages == [] then 0
    else
      var last := messages[|messages| - 1];
      if last.fromUser then EstimateTokens(last.utf8Bytes) else LastUserTokens(messages[..|messages| - 1])
  }

  function RuntimeFeatures(f: PromptFeatures, messages: seq<Message>): PromptFeatures {
    var total := TotalTokens(messages);
    if messages == [] || total == 0 then f
    else
      var promptTokens := Max(LastUserTokens(messages), f.tokenEstimate);
      f.(tokenEstimate := Max(f.tokenEstimate, promptTokens),
         contextTokenEstimate := Max(f.contextTokenEstimate, Max(total - promptTokens, 0)),
         contextMessages := Max(f.contextMessages, Max(|messages| - 1, 0)))
  }

  method ApplyRuntimeMessageFeatures(f: PromptFeatures, messages: seq<Message>) returns (r: PromptFeatures)
    ensures r == RuntimeFeatures(f, messages)
    ensures r.tokenEstimate + r.contextTokenEstimate >= TotalTokens(messages)
    ensures r.tokenEstimate >= LastUserTokens(messages)
  {
    LastUserWithinTotal(messages);
    if messages == [] { return f; }
    var total, lastUser := 0, 0;
    for i := 0 to |messages|
      invariant total == TotalTokens(messages[..i])
      invariant lastUser == LastUserTokens(messages[..i])
    {
      assert messages[..i + 1][..i] == messages[..i];
      var tokens := EstimateTokens(messages[i].utf8Bytes);
      total := total + tokens;
      if messages[i].fromUser { lastUser := tokens; }
    }
    assert messages[..|messages|] == messages;
    if total <= 0 { return f; }
    var promptTokens := Max(lastUser, f.tokenEstimate);
    var contextTokens := Max(total - promptTokens, 0);
    var contextMessages := Max(|messages| - 1, 0);
    r := f.(tokenEstimate := Max(f.tokenEstimate, promptTokens),
            contextTokenEstimate := Max(f.contextTokenEstimate, contextTokens),
            contextMessages := Max(f.contextMessages, contextMessages));
  }

  lemma {:induction false} LastUserWithinTotal(messages: seq<Message>)
    ensures LastUserTokens(messages) <= TotalTokens(messages)
  {
    if messages != [] { LastUserWithinTotal(messages[..|messages| - 1]); }
  }

  function ApplyConstraints(f: PromptFeatures, c: Constraints): PromptFeatures {
    if c.strictFormat || c.jsonOnly then f.(strictFormat := true, hasStrictConstraints := true) else f
  }

  /** The features a run is routed on. */
  function RoutedFeatures(f: PromptFeatures, messages: seq<Message>, c: Constraints): PromptFeatures {
    ApplyConstraints(RuntimeFeatures(f, messages), c)
  }

  lemma RuntimeCovers(f: PromptFeatures, messages: seq<Message>)
    ensures RuntimeFeatures(f, messages).tokenEstimate + RuntimeFeatures(f, messages).contextTokenEstimate >=
            TotalTokens(messages)
  {
    hide TotalTokens, LastUserTokens;
    if messages == [] { NoTokens(messages); }
  }

  /** Estimates raised, everything else as it was. */
  lemma RaisedEstimatesAskForMore(f: PromptFeatures, prompt: nat, context: nat, count: nat)
    requires prompt >= f.tokenEstimate && context >= f.contextTokenEstimate && count >= f.contextMessages
    ensures AsksAtLeast(f.(tokenEstimate := prompt, contextTokenEstimate := context, contextMessages := count), f)
    ensures AsksAtLeast(f, f)
  {
  }

  lemma RuntimeAsksForMore(f: PromptFeatures, messages: seq<Message>)
    ensures AsksAtLeast(RuntimeFeatures(f, messages), f)
  {
    var r := RuntimeFeatures(f, messages);
    assert r == f || r == f.(tokenEstimate := r.tokenEstimate, contextTokenEstimate := r.contextTokenEstimate,
                             contextMessages := r.contextMessages);
    assert r.tokenEstimate >= f.tokenEstimate && r.contextTokenEstimate >= f.contextTokenEstimate &&
           r.contextMessages >= f.contextMessages;
    hide AsksAtLeast, RuntimeFeatures;
    RaisedEstimatesAskForMore(f, r.tokenEstimate, r.contextTokenEstimate, r.contextMessages);
  }

  lemma NoTokens(messages: seq<Message>)
    requires messages == []
    ensures TotalTokens(messages) == 0
  {
  }

  lemma ConstraintsAskForMore(f: PromptFeatures, c: Constraints)
    ensures AsksAtLeast(ApplyConstraints(f, c), f)
    ensures ApplyConstraints(f, c).tokenEstimate == f.tokenEstimate
    ensures ApplyConstraints(f, c).contextTokenEstimate == f.contextTokenEstimate
  {
  }

  lemma AskingChains(h: PromptFeatures, g: PromptFeatures, f: PromptFeatures)
    requires AsksAtLeast(h, g) && AsksAtLeast(g, f)
    ensures AsksAtLeast(h, f)
  {
  }

  /** The routed estimate covers the whole payload, and routing only ever adds demands. */
  lemma RoutingNeverUnderestimates(f: PromptFeatures, messages: seq<Message>, c: Constraints)
    ensures RoutedFeatures(f, messages, c).tokenEstimate + RoutedFeatures(f, messages, c).contextTokenEstimate >=
            TotalTokens(messages)
    ensures AsksAtLeast(RoutedFeatures(f, messages, c), f)
  {
    hide AsksAtLeast, RuntimeFeatures, ApplyConstraints, TotalTokens;
    var runtime := RuntimeFeatures(f, messages);
    RuntimeCovers(f, messages);
    RuntimeAsksForMore(f, messages);
    ConstraintsAskForMore(runtime, c);
    AskingChains(ApplyConstraints(runtime, c), runtime, f);
  }

  /** Folding in the runtime payload and the constraints never lowers the tier. */
  lemma {:induction false} RoutingNeverLowersTheTier(f: PromptFeatures, messages: seq<Message>, c: Constraints,
                                                     t: Thresholds)
    ensures Rank(TierDecider.Decide(f, t).tier) <= Rank(TierDecider.Decide(RoutedFeatures(f, messages, c), t).tier)
  {
    var r := RoutedFeatures(f, messages, c);
    assert AsksAtLeast(r, f) by { RoutingNeverUnderestimates(f, messages, c); }
    TierIsMonotone(f, r, t);
  }

  /** A tier holding one model large enough for the routed estimate only yields models that hold the payload. */
  lemma {:induction false} SelectedHoldThePayload(reg: Registry, sel: Selector, f: PromptFeatures,
                                                  messages: seq<Message>,
                               c: Constraints, tier: Tier)
    requires exists m :: m in reg.models && Eligible(reg, tier, c, m) &&
                         m.contextLimit >= RequiredTokens(sel, RoutedFeatures(f, messages, c))
    ensures var r := Select(sel, RoutedFeatures(f, messages, c), Candidates(reg, tier, c), c);
            r.Ok? && forall m :: m in r.value ==> m.contextLimit >= TotalTokens(messages) + sel.tokenBuffer
  {
    SelectedCandidatesFit(sel, RoutedFeatures(f, messages, c), Candidates(reg, tier, c), c);
  }

  datatype Mode = Smart | Cheap | Strong

  function ChosenTier(mode: Mode, f: PromptFeatures, t: Thresholds): Tier {
    match mode
    case Cheap => T0
    case Strong => T2
    case Smart => TierDecider.Decide(f, t).tier
  }

  /** One tier's ranked candidates. */
  function Ranked(reg: Registry, sel: Selector, f: PromptFeatures, c: Constraints, tier: Tier)
    : Result<seq<Candidate>, RoutingError>
  {
    Select(sel, f, Candidates(reg, tier, c), c)
  }

  /** Ranking raises exactly for a tier without candidates, and only ranks eligible models. */
  lemma RankedMembers(reg: Registry, sel: Selector, f: PromptFeatures, c: Constraints, tier: Tier)
    ensures Ranked(reg, sel, f, c, tier).Ok? <==> Candidates(reg, tier, c) != []
    ensures Ranked(reg, sel, f, c, tier).Ok? ==>
              forall m :: m in Ranked(reg, sel, f, c, tier).value ==> m in reg.models && Eligible(reg, tier, c, m)
  {
    var candidates := Candidates(reg, tier, c);
    SelectRaisesIff(sel, f, candidates, c);
    assert candidates != [] ==> candidates[0] in candidates && candidates[0].enabled;
    if Ranked(reg, sel, f, c, tier).Ok? {
      forall m | m in Ranked(reg, sel, f, c, tier).value ensures m in reg.models && Eligible(reg, tier, c, m) {
        SelectedExactlyWhenSurviving(sel, f, candidates, c, m);
      }
    }
  }

  lemma RankedNoDuplicates(reg: Registry, sel: Selector, f: PromptFeatures, c: Constraints, tier: Tier)
    requires WellFormed(reg) && Ranked(reg, sel, f, c, tier).Ok?
    ensures NoDuplicates(Ranked(reg, sel, f, c, tier).value)
  {
    CandidatesNoDuplicates(reg, tier, c);
    SelectNoDuplicates(sel, f, Candidates(reg, tier, c), c);
  }

  /** An allowed model that could move the run to its own tier. */
  predicate Usable(reg: Registry, c: Constraints, key: ModelKey) {
    var found := FindModel(reg.models, key);
    found.Some? && found.value.enabled && Candidates(reg, found.value.tier, c) != []
  }

  datatype Plan = Plan(features: PromptFeatures, tier: Tier, ordered: seq<Candidate>)

  function AllowedKeys(c: Constraints): seq<ModelKey> {
    if c.allowedModels.Some? then c.allowedModels.value else []
  }

  /** The run starts on `tier`: the chosen one if it has candidates, else the first usable allowed model's. */
  ghost predicate StartsOn(reg: Registry, c: Constraints, chosen: Tier, tier: Tier) {
    if Candidates(reg, chosen, c) != [] then tier == chosen
    else
      exists i :: 0 <= i < |AllowedKeys(c)| && Usable(reg, c, AllowedKeys(c)[i]) &&
        tier == FindModel(reg.models, AllowedKeys(c)[i]).value.tier &&
        forall j :: 0 <= j < i ==> !Usable(reg, c, AllowedKeys(c)[j])
  }

  /** The loop over the allowed models, entered only when the chosen tier is empty. */
  method FirstUsableTier(reg: Registry, c: Constraints, chosen: Tier) returns (tier: Tier, candidates: seq<Candidate>)
    requires Candidates(reg, chosen, c) == []
    ensures candidates == Candidates(reg, tier, c)
    ensures candidates != [] ==> StartsOn(reg, c, chosen, tier)
    ensures candidates == [] <==> forall k :: k in AllowedKeys(c) ==> !Usable(reg, c, k)
  {
    tier, candidates := chosen, [];
    var keys := AllowedKeys(c);
    for i := 0 to |keys|
      invariant candidates == [] && candidates == Candidates(reg, tier, c)
      invariant forall j :: 0 <= j < i ==> !Usable(reg, c, keys[j])
    {
      var found := FindModel(reg.models, keys[i]);
      if found.Some? && found.value.enabled {
        tier := found.value.tier;
        candidates := GetCandidates(reg, tier, c);
        if candidates != [] {
          assert Usable(reg, c, keys[i]);
          return;
        }
      }
    }
  }

  /** Planning fails exactly when the chosen tier is empty and no allowed model is usable. */
  method RouteOncePlan(reg: Registry, sel: Selector, thresholds: Thresholds, analysed: PromptFeatures,
                       messages: seq<Message>, mode: Mode, c: Constraints)
    returns (r: Result<Plan, RoutingError>)
    ensures var f := RoutedFeatures(analysed, messages, c);
            var chosen := ChosenTier(mode, f, thresholds);
            && (r.Err? <==> Candidates(reg, chosen, c) == [] &&
                            forall k :: k in AllowedKeys(c) ==> !Usable(reg, c, k))
            && (r.Ok? ==>
                  && r.value.features == f
                  && StartsOn(reg, c, chosen, r.value.tier)
                  && Ranked(reg, sel, f, c, r.value.tier) == Ok(r.value.ordered))
  {
    var f := ApplyRuntimeMessageFeatures(analysed, messages);
    f := ApplyConstraints(f, c);
    var tier := ChosenTier(mode, f, thresholds);
    var candidates := GetCandidates(reg, tier, c);
    if candidates == [] && c.allowedModels.Some? {
      tier, candidates := FirstUsableTier(reg, c, tier);
    }
    RankedMembers(reg, sel, f, c, tier);
    var ordered := Ranked(reg, sel, f, c, tier);
    match ordered
    case Err(e) => r := Err(e);
    case Ok(models) => r := Ok(Plan(f, tier, models));
  }

  // -- the routed features to the token --------------------------------------------------------------

  /** Three bytes to a token, the last one possibly with fewer. */
  lemma TokensCoverBytes(utf8Bytes: nat)
    ensures 3 * EstimateTokens(utf8Bytes) >= utf8Bytes && 3 * EstimateTokens(utf8Bytes) < utf8Bytes + 3
  {
  }

  /** The total is the sum over all messages, the user's estimate that of the user's last one. */
  lemma {:induction false} TotalsOfOneMore(messages: seq<Message>, m: Message)
    ensures TotalTokens([]) == 0 && LastUserTokens([]) == 0
    ensures TotalTokens(messages + [m]) == TotalTokens(messages) + EstimateTokens(m.utf8Bytes)
    ensures LastUserTokens(messages + [m]) ==
            if m.fromUser then EstimateTokens(m.utf8Bytes) else LastUserTokens(messages)
  {
    assert (messages + [m])[..|messages|] == messages;
  }

  /** The estimates are raised no further than the messages ask for. */
  lemma RaisedNoFurther(f: PromptFeatures, messages: seq<Message>)
    requires TotalTokens(messages) > 0
    ensures var r := RuntimeFeatures(f, messages);
            && r.tokenEstimate >= f.tokenEstimate && r.tokenEstimate >= LastUserTokens(messages)
            && (r.tokenEstimate == f.tokenEstimate || r.tokenEstimate == LastUserTokens(messages))
            && r.contextTokenEstimate >= f.contextTokenEstimate
            && r.tokenEstimate + r.contextTokenEstimate >= TotalTokens(messages)
            && (r.contextTokenEstimate == f.contextTokenEstimate ||
                r.tokenEstimate + r.contextTokenEstimate == TotalTokens(messages))
            && r.contextMessages == Max(f.contextMessages, |messages| - 1)
  {
    LastUserWithinTotal(messages);
  }

  /** Nothing but the estimates follows the messages, and nothing at all where there are no tokens. */
  lemma MessagesOnlyRaise(f: PromptFeatures, messages: seq<Message>)
    ensures var r := RuntimeFeatures(f, messages);
            && r == f.(tokenEstimate := r.tokenEstimate, contextTokenEstimate := r.contextTokenEstimate,
                       contextMessages := r.contextMessages)
            && (TotalTokens(messages) == 0 ==> r == f)
  {
    var total, last := TotalTokens(messages), LastUserTokens(messages);
    var prompt := Max(last, f.tokenEstimate);
    hide TotalTokens, LastUserTokens, Max;
    if messages != [] && total != 0 {
      assert RuntimeFeatures(f, messages) ==
             f.(tokenEstimate := Max(f.tokenEstimate, prompt),
                contextTokenEstimate := Max(f.contextTokenEstimate, Max(total - prompt, 0)),
                contextMessages := Max(f.contextMessages, Max(|messages| - 1, 0)));
    }
    hide RuntimeFeatures;
  }

  /** A form to be kept makes the request strict, and nothing else of it changes. */
  lemma ConstraintsMakeStrict(f: PromptFeatures, c: Constraints)
    ensures var r := ApplyConstraints(f, c);
            && (r.strictFormat <==> f.strictFormat || c.jsonOnly || c.strictFormat)
            && (r.hasStrictConstraints <==> f.hasStrictConstraints || c.jsonOnly || c.strictFormat)
            && r == f.(strictFormat := r.strictFormat, hasStrictConstraints := r.hasStrictConstraints)
  {
  }

  /** "cheap" and "strong" fix the tier; otherwise the request's own needs decide. */
  lemma ModeDecides(f: PromptFeatures, t: Thresholds)
    ensures ChosenTier(Cheap, f, t) == T0 && ChosenTier(Strong, f, t) == T2
    ensures ChosenTier(Smart, f, t) == T3 <==> ForTheBest(f, t)
    ensures ChosenTier(Smart, f, t) == T2 <==> !ForTheBest(f, t) && ForStrong(f, t)
    ensures ChosenTier(Smart, f, t) == T0 <==> !ForTheBest(f, t) && !ForStrong(f, t) && ForCheap(f, t)
  {
    TierIff(f, t);
    hide TierDecider.Decide;
  }

  /** With the chosen tier empty the run starts on the tier of the first allowed model that is of use. */
  lemma StartsOnTheFirstUsable(reg: Registry, c: Constraints, chosen: Tier, tier: Tier, i: nat)
    requires StartsOn(reg, c, chosen, tier) && Candidates(reg, chosen, c) == []
    requires i < |AllowedKeys(c)| && Usable(reg, c, AllowedKeys(c)[i])
    requires forall k :: k in AllowedKeys(c)[..i] ==> !Usable(reg, c, k)
    ensures var found := FindModel(reg.models, AllowedKeys(c)[i]);
            found.Some? && tier == found.value.tier && Candidates(reg, tier, c) != []
  {
    hide Candidates;
    var n :| 0 <= n < |AllowedKeys(c)| && Usable(reg, c, AllowedKeys(c)[n]) &&
      tier == FindModel(reg.models, AllowedKeys(c)[n]).value.tier &&
      forall j :: 0 <= j < n ==> !Usable(reg, c, AllowedKeys(c)[j]);
    assert forall j :: 0 <= j < i ==> AllowedKeys(c)[j] in AllowedKeys(c)[..i];
  }
}
