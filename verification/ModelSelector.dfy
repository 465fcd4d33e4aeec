/** Filtering and ranking of one tier's candidates (orchestrator/model_selector.py). */
module ModelSelector {
  import opened Prelude
  import opened Sequences
  import opened Routing

  /** The configured token buffer and the pluggable reliability store. */
  datatype Selector = Selector(tokenBuffer: int, reliability: ModelKey -> real)

  datatype RankKey = RankKey(
    negReliability: real,
    codingRank: int,
    tagPenalty: int,
    blendedCost: real,
    providerPenalty: int,
    negContext: int)

  /** Python's order on tuples: the first differing component decides. */
  predicate KeyLe(a: RankKey, b: RankKey) {
    a.negReliability < b.negReliability ||
    (a.negReliability == b.negReliability &&
    (a.codingRank < b.codingRank ||
    (a.codingRank == b.codingRank &&
    (a.tagPenalty < b.tagPenalty ||
    (a.tagPenalty == b.tagPenalty &&
    (a.blendedCost < b.blendedCost ||
    (a.blendedCost == b.blendedCost &&
    (a.providerPenalty < b.providerPenalty ||
    (a.providerPenalty == b.providerPenalty && a.negContext <= b.negContext)))))))))
  }

  predicate IsCodingTask(f: PromptFeatures) {
    f.hasCode || f.hasLogsStacktrace || f.intent == Code
  }

  function PreferredOrder(): map<ModelKey, int> {
    map[
      ModelKey("openai", "gpt-5.6-sol") := 0,
      ModelKey("openai", "gpt-5.4") := 1,
      ModelKey("claude", "claude-opus-5") := 2,
      ModelKey("deepseek", "deepseek-v4-pro") := 3,
      ModelKey("grok", "grok-4.5") := 4,
      ModelKey("gemini", "gemini-3.1-pro-preview") := 5,
      ModelKey("claude", "claude-fable-5") := 6
    ]
  }

  function CodingPreferenceRank(m: Candidate, f: PromptFeatures): int {
    if !IsCodingTask(f) then 999
    else if m.Key() in PreferredOrder() then PreferredOrder()[m.Key()]
    else if {"coding", "reasoning"} * m.tags != {} then 50
    else 100
  }

  function TagPenalty(m: Candidate, f: PromptFeatures): int {
    var needsCoding := IsCodingTask(f);
    var needsReasoning := f.hasMath || f.hasAnalysis || f.needsAccuracy || f.intent == Analysis;
    var shortSimple := f.intent in {Rewrite, Summarize, Bullets, Brainstorm} && f.tokenEstimate < 700 &&
                       !needsCoding && !needsReasoning;
    var largeContext := f.tokenEstimate + f.contextTokenEstimate >= 2200;
    (if needsCoding && {"coding", "reasoning"} * m.tags == {} then 3 else 0) +
    (if needsReasoning && "reasoning" !in m.tags then 2 else 0) +
    (if shortSimple && "non_reasoning" !in m.tags && "cheap" !in m.tags then 1 else 0) +
    (if largeContext && "long_context" !in m.tags then 1 else 0)
  }

  function Key(sel: Selector, m: Candidate, f: PromptFeatures, c: Constraints): RankKey {
    RankKey(
      -sel.reliability(m.Key()),
      CodingPreferenceRank(m, f),
      TagPenalty(m, f),
      0.6 * m.inputCostPer1m + 0.4 * m.outputCostPer1m,
      if c.preferredProvider == Some(m.provider) then 0 else 1,
      -m.contextLimit)
  }

  function RankOrder(sel: Selector, f: PromptFeatures, c: Constraints): (Candidate, Candidate) -> bool {
    (a, b) => KeyLe(Key(sel, a, f, c), Key(sel, b, f, c))
  }

  lemma RankOrderIsPreorder(sel: Selector, f: PromptFeatures, c: Constraints)
    ensures TotalPreorder(RankOrder(sel, f, c))
  {
  }

  function Max(a: int, b: int): int { if a < b then b else a }

  function EstimatedRequestCost(m: Candidate, f: PromptFeatures): real {
    var promptTokens := f.tokenEstimate + f.contextTokenEstimate;
    var completionTokens :=
      if f.hasCode || f.hasAnalysis || f.hasMath then Max(f.tokenEstimate * 8 / 10, 200)
      else Max(f.tokenEstimate / 2, 80);
    (promptTokens as real * m.inputCostPer1m + completionTokens as real * m.outputCostPer1m) / 1000000.0
  }

  function RequiredTokens(sel: Selector, f: PromptFeatures): int {
    f.tokenEstimate + f.contextTokenEstimate + sel.tokenBuffer
  }

  function Fits(sel: Selector, f: PromptFeatures): Candidate -> bool {
    (m: Candidate) => m.contextLimit >= RequiredTokens(sel, f) && m.enabled
  }

  function Enabled(): Candidate -> bool { (m: Candidate) => m.enabled }

  function Affordable(f: PromptFeatures, maxCost: real): Candidate -> bool {
    (m: Candidate) => EstimatedRequestCost(m, f) <= maxCost
  }

  function LargeEnough(sel: Selector, f: PromptFeatures, candidates: seq<Candidate>): seq<Candidate> {
    var fitting := Filter(candidates, Fits(sel, f));
    if fitting == [] then Filter(candidates, Enabled()) else fitting
  }

  /** The candidates that stay in the running: large enough if any is, then affordable if any is. */
  function InTheRunning(sel: Selector, f: PromptFeatures, candidates: seq<Candidate>, c: Constraints): seq<Candidate> {
    var filtered := LargeEnough(sel, f, candidates);
    if c.maxCostUsd.None? then filtered
    else
      var affordable := Filter(filtered, Affordable(f, c.maxCostUsd.value));
      if affordable == [] then filtered else affordable
  }

  /** Primary candidate first, fallbacks after it; an empty selection raises. */
  function Select(sel: Selector, f: PromptFeatures, candidates: seq<Candidate>, c: Constraints)
    : Result<seq<Candidate>, RoutingError>
  {
    var ranked := StableSort(InTheRunning(sel, f, candidates, c), RankOrder(sel, f, c));
    if ranked == [] then Err(NoCandidatesForSelection) else Ok(ranked)
  }

  /** Selection raises exactly when no candidate is enabled. */
  lemma SelectRaisesIff(sel: Selector, f: PromptFeatures, candidates: seq<Candidate>, c: Constraints)
    ensures Select(sel, f, candidates, c).Err? <==> forall m :: m in candidates ==> !m.enabled
  {
    var running := InTheRunning(sel, f, candidates, c);
    if exists m :: m in candidates && m.enabled {
      var m :| m in candidates && m.enabled;
      assert m in Filter(candidates, Enabled());
      assert running != [];
    } else {
      var ranked := StableSort(running, RankOrder(sel, f, c));
      if ranked != [] { assert ranked[0] in running; }
    }
  }

  /**
    The result is the surviving candidates, each as often as before, in rank order, ties in
    registry order.
   */
  lemma SelectIsTheSortedSurvivors(sel: Selector, f: PromptFeatures, candidates: seq<Candidate>, c: Constraints)
    requires Select(sel, f, candidates, c).Ok?
    ensures var r := Select(sel, f, candidates, c).value;
            && multiset(r) == multiset(InTheRunning(sel, f, candidates, c))
            && SortedBy(r, RankOrder(sel, f, c))
            && forall k: RankKey :: Filter(r, HasKey(sel, f, c, k)) ==
                                    Filter(InTheRunning(sel, f, candidates, c), HasKey(sel, f, c, k))
  {
    RankOrderIsPreorder(sel, f, c);
    var running := InTheRunning(sel, f, candidates, c);
    StableSortSorted(running, RankOrder(sel, f, c));
    forall k: RankKey
      ensures Filter(Select(sel, f, candidates, c).value, HasKey(sel, f, c, k)) ==
              Filter(running, HasKey(sel, f, c, k))
    {
      StableSortKeepsTies(running, RankOrder(sel, f, c), HasKey(sel, f, c, k));
    }
  }

  /** Who survives, stated without the filters: the context test and the cost test each bind when someone passes. */
  ghost predicate Survives(sel: Selector, f: PromptFeatures, candidates: seq<Candidate>, c: Constraints, m: Candidate) {
    && PassesContext(sel, f, candidates, m)
    && (c.maxCostUsd.Some? &&
        (exists n :: PassesContext(sel, f, candidates, n) && EstimatedRequestCost(n, f) <= c.maxCostUsd.value) ==>
          EstimatedRequestCost(m, f) <= c.maxCostUsd.value)
  }

  ghost predicate PassesContext(sel: Selector, f: PromptFeatures, candidates: seq<Candidate>, m: Candidate) {
    && m in candidates && m.enabled
    && ((exists n :: n in candidates && n.enabled && n.contextLimit >= RequiredTokens(sel, f)) ==>
          m.contextLimit >= RequiredTokens(sel, f))
  }

  lemma LargeEnoughIff(sel: Selector, f: PromptFeatures, candidates: seq<Candidate>, m: Candidate)
    ensures m in LargeEnough(sel, f, candidates) <==> PassesContext(sel, f, candidates, m)
  {
    var fitting := Filter(candidates, Fits(sel, f));
    assert fitting != [] ==> fitting[0] in candidates && Fits(sel, f)(fitting[0]);
    if n :| n in candidates && n.enabled && n.contextLimit >= RequiredTokens(sel, f) {
      assert n in fitting;
    }
  }

  lemma SelectedExactlyWhenSurviving(sel: Selector, f: PromptFeatures, candidates: seq<Candidate>, c: Constraints,
                                     m: Candidate)
    requires Select(sel, f, candidates, c).Ok?
    ensures m in Select(sel, f, candidates, c).value <==> Survives(sel, f, candidates, c, m)
  {
    var filtered := LargeEnough(sel, f, candidates);
    assert m in Select(sel, f, candidates, c).value <==> m in InTheRunning(sel, f, candidates, c);
    LargeEnoughIff(sel, f, candidates, m);
    hide Select, StableSort, RankOrder, LargeEnough, PassesContext, Filter, EstimatedRequestCost;
    if c.maxCostUsd.Some? { AffordableIff(sel, f, candidates, c); }
  }

  /** Somebody is within the ceiling exactly if the cost filter leaves somebody. */
  lemma AffordableIff(sel: Selector, f: PromptFeatures, candidates: seq<Candidate>, c: Constraints)
    requires c.maxCostUsd.Some?
    ensures Filter(LargeEnough(sel, f, candidates), Affordable(f, c.maxCostUsd.value)) != [] <==>
            exists n :: PassesContext(sel, f, candidates, n) && EstimatedRequestCost(n, f) <= c.maxCostUsd.value
  {
    var affordable := Filter(LargeEnough(sel, f, candidates), Affordable(f, c.maxCostUsd.value));
    hide LargeEnough, PassesContext, EstimatedRequestCost;
    if affordable != [] {
      assert affordable[0] in affordable;
      LargeEnoughIff(sel, f, candidates, affordable[0]);
    }
    if n :| PassesContext(sel, f, candidates, n) && EstimatedRequestCost(n, f) <= c.maxCostUsd.value {
      LargeEnoughIff(sel, f, candidates, n);
      assert n in affordable;
    }
  }

  function HasKey(sel: Selector, f: PromptFeatures, c: Constraints, k: RankKey): Candidate -> bool {
    (m: Candidate) => Key(sel, m, f, c) == k
  }

  /** One candidate large enough is all it takes: then everything selected holds payload and buffer. */
  lemma SelectedCandidatesFit(sel: Selector, f: PromptFeatures, candidates: seq<Candidate>, c: Constraints)
    requires exists m :: m in candidates && m.enabled && m.contextLimit >= RequiredTokens(sel, f)
    ensures Select(sel, f, candidates, c).Ok?
    ensures forall m :: m in Select(sel, f, candidates, c).value ==> m.contextLimit >= RequiredTokens(sel, f)
  {
    var m :| m in candidates && m.enabled && m.contextLimit >= RequiredTokens(sel, f);
    assert m in Filter(candidates, Fits(sel, f));
    SelectRaisesIff(sel, f, candidates, c);
  }

  /** The cost ceiling never excludes everybody, and binds as soon as one survivor meets it. */
  lemma CostCeilingBindsWhenMet(sel: Selector, f: PromptFeatures, candidates: seq<Candidate>, c: Constraints)
    requires c.maxCostUsd.Some? && Select(sel, f, candidates, c).Ok?
    ensures var within := (m: Candidate) => EstimatedRequestCost(m, f) <= c.maxCostUsd.value;
            var unlimited := InTheRunning(sel, f, candidates, c.(maxCostUsd := None));
            (exists m :: m in unlimited && within(m)) <==>
            (forall m :: m in Select(sel, f, candidates, c).value ==> within(m))
  {
    var unlimited := InTheRunning(sel, f, candidates, c.(maxCostUsd := None));
    var affordable := Filter(unlimited, Affordable(f, c.maxCostUsd.value));
    var selected := Select(sel, f, candidates, c).value;
    assert forall m :: m in selected <==> m in (if affordable == [] then unlimited else affordable);
    assert selected != [] && selected[0] in selected;
    hide StableSort, RankOrder, LargeEnough, Select, InTheRunning, Filter, EstimatedRequestCost;
    assert affordable != [] ==>
      affordable[0] in unlimited && EstimatedRequestCost(affordable[0], f) <= c.maxCostUsd.value;
    if m :| m in unlimited && EstimatedRequestCost(m, f) <= c.maxCostUsd.value {
      assert m in affordable;
    } else {
      assert affordable == [];
    }
  }

  lemma SelectNoDuplicates(sel: Selector, f: PromptFeatures, candidates: seq<Candidate>, c: Constraints)
    requires NoDuplicates(candidates) && Select(sel, f, candidates, c).Ok?
    ensures NoDuplicates(Select(sel, f, candidates, c).value)
  {
    FilterNoDuplicates(candidates, Fits(sel, f));
    FilterNoDuplicates(candidates, Enabled());
    var running := InTheRunning(sel, f, candidates, c);
    if c.maxCostUsd.Some? {
      FilterNoDuplicates(LargeEnough(sel, f, candidates), Affordable(f, c.maxCostUsd.value));
    }
    SameMultisetNoDuplicates(running, StableSort(running, RankOrder(sel, f, c)));
  }

  /** No enabled candidate is turned away for its context. */
  predicate DropsNobody(sel: Selector, f: PromptFeatures, candidates: seq<Candidate>) {
    || (forall m :: m in candidates && m.enabled ==> m.contextLimit >= RequiredTokens(sel, f))
    || (forall m :: m in candidates && m.enabled ==> m.contextLimit < RequiredTokens(sel, f))
  }

  predicate SomebodyFits(sel: Selector, f: PromptFeatures, candidates: seq<Candidate>) {
    exists m :: m in candidates && m.enabled && m.contextLimit >= RequiredTokens(sel, f)
  }

  /**
    Selecting for a larger payload can bring back what selecting for the smaller one turned away: the one selection
    is within the other exactly when the smaller payload turns nobody away or somebody fits the larger.
   */
  lemma LargerPayloadSelectsFewerIff(sel: Selector, f: PromptFeatures, g: PromptFeatures,
                                     candidates: seq<Candidate>, c: Constraints)
    requires RequiredTokens(sel, f) <= RequiredTokens(sel, g) && c.maxCostUsd.None?
    requires Select(sel, f, candidates, c).Ok? && Select(sel, g, candidates, c).Ok?
    ensures (forall m :: m in Select(sel, g, candidates, c).value ==> m in Select(sel, f, candidates, c).value) <==>
            DropsNobody(sel, f, candidates) || SomebodyFits(sel, g, candidates)
  {
    forall m ensures m in Select(sel, f, candidates, c).value <==> PassesContext(sel, f, candidates, m) {
      SelectedExactlyWhenSurviving(sel, f, candidates, c, m);
    }
    forall m ensures m in Select(sel, g, candidates, c).value <==> PassesContext(sel, g, candidates, m) {
      SelectedExactlyWhenSurviving(sel, g, candidates, c, m);
    }
    hide Select, RequiredTokens;
    ContextTestsNestIff(sel, f, g, candidates);
  }

  lemma ContextTestsNestIff(sel: Selector, f: PromptFeatures, g: PromptFeatures, candidates: seq<Candidate>)
    requires RequiredTokens(sel, f) <= RequiredTokens(sel, g)
    ensures (forall m :: PassesContext(sel, g, candidates, m) ==> PassesContext(sel, f, candidates, m)) <==>
            DropsNobody(sel, f, candidates) || SomebodyFits(sel, g, candidates)
  {
    hide RequiredTokens;
    if !SomebodyFits(sel, g, candidates) {
      forall m ensures PassesContext(sel, g, candidates, m) <==> m in candidates && m.enabled {
      }
    }
  }

  /** The smaller of two models, turned away for one payload, is brought back by a larger one, too large for both. */
  lemma LargerPayloadCanBringBack(sel: Selector, f: PromptFeatures, g: PromptFeatures, a: Candidate, b: Candidate,
                                  c: Constraints)
    requires a.enabled && b.enabled && c.maxCostUsd.None?
    requires a.contextLimit < RequiredTokens(sel, f) <= b.contextLimit < RequiredTokens(sel, g)
    ensures Select(sel, f, [a, b], c).Ok? && a !in Select(sel, f, [a, b], c).value
    ensures Select(sel, g, [a, b], c).Ok? && a in Select(sel, g, [a, b], c).value
  {
    var both := [a, b];
    assert a in both && b in both;
    SelectRaisesIff(sel, f, both, c);
    SelectRaisesIff(sel, g, both, c);
    SelectedExactlyWhenSurviving(sel, f, both, c, a);
    SelectedExactlyWhenSurviving(sel, g, both, c, a);
    assert !PassesContext(sel, f, both, a) && PassesContext(sel, g, both, a);
    hide Select, RequiredTokens, PassesContext;
  }

  // -- the order, in terms of models and request -----------------------------------------------------

  /** The models listed for coding, best first. */
  function CodingModels(): (r: seq<ModelKey>)
    ensures |r| == 7
  {
    [ModelKey("openai", "gpt-5.6-sol"), ModelKey("openai", "gpt-5.4"), ModelKey("claude", "claude-opus-5"),
     ModelKey("deepseek", "deepseek-v4-pro"), ModelKey("grok", "grok-4.5"),
     ModelKey("gemini", "gemini-3.1-pro-preview"), ModelKey("claude", "claude-fable-5")]
  }

  predicate ForCoding(m: Candidate) {
    "coding" in m.tags || "reasoning" in m.tags
  }

  predicate StandsAt(m: Candidate, place: int) {
    0 <= place < 7 && CodingModels()[place] == m.Key()
  }

  predicate IsListed(m: Candidate) {
    m.Key() in CodingModels()
  }

  /** Better for coding: listed earlier, or listed at all, or at least tagged for it. */
  predicate CodesBetter(a: Candidate, b: Candidate) {
    if IsListed(a) && IsListed(b) then exists i, j :: 0 <= i < j < 7 && StandsAt(a, i) && StandsAt(b, j)
    else if IsListed(a) || IsListed(b) then IsListed(a)
    else ForCoding(a) && !ForCoding(b)
  }

  predicate AsksForCode(f: PromptFeatures) {
    f.hasCode || f.hasLogsStacktrace || f.intent == Code
  }

  predicate AsksForReasoning(f: PromptFeatures) {
    f.hasMath || f.hasAnalysis || f.needsAccuracy || f.intent == Analysis
  }

  predicate ShortAndSimple(f: PromptFeatures) {
    !AsksForCode(f) && !AsksForReasoning(f) && f.tokenEstimate < 700 &&
    (f.intent == Rewrite || f.intent == Summarize || f.intent == Bullets || f.intent == Brainstorm)
  }

  /** What the model's tags lack for the request: three for coding, two for reasoning, one each for cheap and long. */
  function Lacks(m: Candidate, f: PromptFeatures): nat {
    (if AsksForCode(f) && !ForCoding(m) then 3 else 0) +
    (if AsksForReasoning(f) && "reasoning" !in m.tags then 2 else 0) +
    (if ShortAndSimple(f) && !("cheap" in m.tags || "non_reasoning" in m.tags) then 1 else 0) +
    (if f.tokenEstimate + f.contextTokenEstimate >= 2200 && "long_context" !in m.tags then 1 else 0)
  }

  /** Three parts input and two parts output. */
  function Price(m: Candidate): real {
    3.0 * m.inputCostPer1m + 2.0 * m.outputCostPer1m
  }

  predicate SamePreference(f: PromptFeatures, a: Candidate, b: Candidate) {
    AsksForCode(f) ==> !CodesBetter(a, b)
  }

  predicate IsPreferred(m: Candidate, c: Constraints) {
    c.preferredProvider == Some(m.provider)
  }

  /** How `a` may stand before `b`. */
  predicate MayPrecede(sel: Selector, f: PromptFeatures, c: Constraints, a: Candidate, b: Candidate) {
    var ra, rb := sel.reliability(a.Key()), sel.reliability(b.Key());
    && ra >= rb
    && (ra == rb ==>
          && (AsksForCode(f) ==> !CodesBetter(b, a))
          && (SamePreference(f, a, b) ==>
                && Lacks(a, f) <= Lacks(b, f)
                && (Lacks(a, f) == Lacks(b, f) ==>
                      && Price(a) <= Price(b)
                      && (Price(a) == Price(b) ==>
                            && (IsPreferred(b, c) ==> IsPreferred(a, c))
                            && (IsPreferred(a, c) == IsPreferred(b, c) ==> a.contextLimit >= b.contextLimit)))))
  }

  lemma ListedRank(m: Candidate, f: PromptFeatures, place: int)
    requires AsksForCode(f) && StandsAt(m, place)
    ensures CodingPreferenceRank(m, f) == place
  {
  }

  lemma UnlistedRank(m: Candidate, f: PromptFeatures)
    requires AsksForCode(f) && !IsListed(m)
    ensures CodingPreferenceRank(m, f) == if ForCoding(m) then 50 else 100
  {
    var l := CodingModels();
    assert m.Key() != l[0] && m.Key() != l[1] && m.Key() != l[2] && m.Key() != l[3] && m.Key() != l[4];
    assert m.Key() != l[5] && m.Key() != l[6];
    assert m.Key() !in PreferredOrder();
    TaggedIff(m);
  }

  lemma TaggedIff(m: Candidate)
    ensures {"coding", "reasoning"} * m.tags == {} <==> !ForCoding(m)
  {
    assert "coding" in m.tags ==> "coding" in {"coding", "reasoning"} * m.tags;
    assert "reasoning" in m.tags ==> "reasoning" in {"coding", "reasoning"} * m.tags;
  }

  lemma PlaceOf(m: Candidate) returns (place: int)
    requires IsListed(m)
    ensures StandsAt(m, place)
  {
    place :| 0 <= place < 7 && CodingModels()[place] == m.Key();
  }

  lemma CodesBetterIff(a: Candidate, b: Candidate, f: PromptFeatures)
    requires AsksForCode(f)
    ensures CodesBetter(a, b) <==> CodingPreferenceRank(a, f) < CodingPreferenceRank(b, f)
  {
    hide CodingPreferenceRank, ForCoding;
    var i, j := 0, 0;
    if IsListed(a) {
      i := PlaceOf(a);
      ListedRank(a, f, i);
    } else {
      UnlistedRank(a, f);
    }
    if IsListed(b) {
      j := PlaceOf(b);
      ListedRank(b, f, j);
    } else {
      UnlistedRank(b, f);
    }
    if IsListed(a) && IsListed(b) {
      forall k, l | 0 <= k < l < 7 && StandsAt(a, k) && StandsAt(b, l) ensures k == i && l == j {
        ListedRank(a, f, k);
        ListedRank(b, f, l);
      }
      assert CodesBetter(a, b) <==> i < j;
    } else if IsListed(a) {
      assert CodesBetter(a, b);
    } else if IsListed(b) {
      assert !CodesBetter(a, b);
    } else {
      assert CodesBetter(a, b) <==> ForCoding(a) && !ForCoding(b);
    }
  }

  lemma LacksIsThePenalty(m: Candidate, f: PromptFeatures)
    ensures TagPenalty(m, f) == Lacks(m, f)
  {
    TaggedIff(m);
  }

  lemma KeysInOrder(sel: Selector, f: PromptFeatures, c: Constraints, a: Candidate, b: Candidate)
    requires RankOrder(sel, f, c)(a, b)
    ensures MayPrecede(sel, f, c, a, b)
  {
    LacksIsThePenalty(a, f);
    LacksIsThePenalty(b, f);
    if AsksForCode(f) {
      CodesBetterIff(a, b, f);
      CodesBetterIff(b, a, f);
    }
    hide CodesBetter, Lacks, TagPenalty;
    assert !AsksForCode(f) ==> CodingPreferenceRank(a, f) == CodingPreferenceRank(b, f) == 999;
    hide CodingPreferenceRank;
  }

  /**
    The more reliable first; for code the better coder; then who lacks less, costs less, is preferred, has the larger
    context.
   */
  lemma SelectedInOrder(sel: Selector, f: PromptFeatures, candidates: seq<Candidate>, c: Constraints, i: nat, j: nat)
    requires Select(sel, f, candidates, c).Ok? && i < j < |Select(sel, f, candidates, c).value|
    ensures var r := Select(sel, f, candidates, c).value; MayPrecede(sel, f, c, r[i], r[j])
  {
    SelectIsTheSortedSurvivors(sel, f, candidates, c);
    var r := Select(sel, f, candidates, c).value;
    hide Select, RankOrder, MayPrecede;
    KeysInOrder(sel, f, c, r[i], r[j]);
  }

  /** The estimate: the tokens at their prices, an answer being half the prompt, for demanding requests four fifths. */
  lemma CostIsTokensAtTheirPrices(m: Candidate, f: PromptFeatures) returns (answer: int)
    ensures EstimatedRequestCost(m, f) * 1000000.0 ==
            (f.tokenEstimate + f.contextTokenEstimate) as real * m.inputCostPer1m + answer as real * m.outputCostPer1m
    ensures if f.hasCode || f.hasAnalysis || f.hasMath then
              answer >= 200 && 5 * (answer + 1) > 4 * f.tokenEstimate &&
              (answer > 200 ==> 5 * answer <= 4 * f.tokenEstimate)
            else
              answer >= 80 && 2 * (answer + 1) > f.tokenEstimate && (answer > 80 ==> 2 * answer <= f.tokenEstimate)
  {
    answer := if f.hasCode || f.hasAnalysis || f.hasMath then Max(f.tokenEstimate * 8 / 10, 200)
              else Max(f.tokenEstimate / 2, 80);
    var total := (f.tokenEstimate + f.contextTokenEstimate) as real * m.inputCostPer1m +
                 answer as real * m.outputCostPer1m;
    assert EstimatedRequestCost(m, f) == total / 1000000.0;
  }
}
