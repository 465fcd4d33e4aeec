/**
  The plan is made without the runtime messages, the run with them (orchestrator/core.py): exactly when the plan
  still covers the run.
 */
module PlanCoverage {
  import opened Prelude
  import opened Sequences
  import opened Routing
  import opened TierDecider
  import opened ModelRegistry
  import opened ModelSelector
  import opened SmartRouter
  import opened ResponseValidator
  import opened AttemptLoop
  import opened AttemptLoopReach
  import opened TargetPlan
  import opened SmartRun

  /** The tiers a run from `from` can reach: upwards, until a tier has no candidates. */
  predicate WithinReach(reg: Registry, c: Constraints, from: Tier, t: Tier) {
    if from in reg.tierOrder then
      && t in reg.tierOrder && IndexOf(reg.tierOrder, from) <= IndexOf(reg.tierOrder, t)
      && forall j :: IndexOf(reg.tierOrder, from) <= j <= IndexOf(reg.tierOrder, t) ==>
           Candidates(reg, reg.tierOrder[j], c) != []
    else t == from && Candidates(reg, t, c) != []
  }

  lemma WithinReachIsReachable(reg: Registry, sel: Selector, limits: Limits, f: PromptFeatures, c: Constraints,
                               from: Tier, env: Environment, t: Tier)
    requires WellFormed(reg)
    ensures Reachable(SettingOf(reg, sel, limits, f, c, from, env), t) <==> WithinReach(reg, c, from, t)
  {
    var s := SettingOf(reg, sel, limits, f, c, from, env);
    forall u ensures RankedAt(s, u) != [] <==> Candidates(reg, u, c) != [] {
      RankedMembers(reg, sel, f, c, u);
      if Ranked(reg, sel, f, c, u).Ok? { RankingIsProper(reg, sel, f, c, u); }
    }
    hide Candidates, RankedAt, IndexOf;
  }

  /** Whoever of the tier stays in the running for the one payload does so for the other. */
  ghost predicate StaysInTheRunning(reg: Registry, sel: Selector, c: Constraints, run: PromptFeatures,
                                    planned: PromptFeatures, t: Tier)
  {
    forall m :: Survives(sel, run, Candidates(reg, t, c), c, m) ==> Survives(sel, planned, Candidates(reg, t, c), c, m)
  }

  lemma RankedIffSurviving(reg: Registry, sel: Selector, limits: Limits, f: PromptFeatures, c: Constraints, from: Tier,
                           env: Environment, t: Tier, m: Candidate)
    ensures m in RankedAt(SettingOf(reg, sel, limits, f, c, from, env), t) <==>
            Survives(sel, f, Candidates(reg, t, c), c, m)
  {
    SelectRaisesIff(sel, f, Candidates(reg, t, c), c);
    if Ranked(reg, sel, f, c, t).Ok? { SelectedExactlyWhenSurviving(sel, f, Candidates(reg, t, c), c, m); }
  }

  lemma SettingsShareTheCatalogue(reg: Registry, sel: Selector, limits: Limits, c: Constraints,
                                  planned: PromptFeatures, run: PromptFeatures, planTier: Tier, runTier: Tier,
                                  env: Environment)
    requires WellFormed(reg)
    ensures OneCatalogue(SettingOf(reg, sel, limits, planned, c, planTier, env),
                         SettingOf(reg, sel, limits, run, c, runTier, env))
  {
    var plan := SettingOf(reg, sel, limits, planned, c, planTier, env);
    var s := SettingOf(reg, sel, limits, run, c, runTier, env);
    forall t, u, m, n | m in RankedAt(s, t) && n in RankedAt(plan, u) && m.Key() == n.Key() ensures t == u && m == n {
      RankedMembers(reg, sel, run, c, t);
      RankedMembers(reg, sel, planned, c, u);
      KeysIdentifyModels(reg, m, n);
    }
  }

  /**
    For any two payloads, with a cost ceiling or without: the plan for the one covers every run with the other,
    exactly when no attempt is allowed or, in every tier the run can reach, whoever is in the running is so in the
    plan.
   */
  lemma PlanCoversRunsIff(reg: Registry, sel: Selector, limits: Limits, c: Constraints, planned: PromptFeatures,
                          run: PromptFeatures, planTier: Tier, runTier: Tier, env: Environment)
    requires WellFormed(reg) && planTier in reg.tierOrder
    ensures var plan := SettingOf(reg, sel, limits, planned, c, planTier, env);
            var s := SettingOf(reg, sel, limits, run, c, runTier, env);
            var covered := reg.maxAttempts <= 0 ||
                           forall t :: WithinReach(reg, c, runTier, t) ==>
                             t in reg.tierOrder && StaysInTheRunning(reg, sel, c, run, planned, t);
            (CoversConsulted(plan, s) <==> covered) && (CoversInvoked(plan, s) <==> covered)
  {
    var plan := SettingOf(reg, sel, limits, planned, c, planTier, env);
    var s := SettingOf(reg, sel, limits, run, c, runTier, env);
    SettingOfIsWellBehaved(reg, sel, limits, run, c, runTier, env);
    SettingsShareTheCatalogue(reg, sel, limits, c, planned, run, planTier, runTier, env);
    RanksAllReachableIff(reg, sel, limits, c, planned, run, planTier, runTier, env);
    hide WellBehaved, WithinReach, OneCatalogue, RanksAllReachable, CoversConsulted, CoversInvoked;
    PlanCoversIff(plan, s);
  }

  lemma RanksAllReachableIff(reg: Registry, sel: Selector, limits: Limits, c: Constraints, planned: PromptFeatures,
                             run: PromptFeatures, planTier: Tier, runTier: Tier, env: Environment)
    requires WellFormed(reg)
    ensures RanksAllReachable(SettingOf(reg, sel, limits, planned, c, planTier, env),
                              SettingOf(reg, sel, limits, run, c, runTier, env)) <==>
            forall t :: WithinReach(reg, c, runTier, t) ==>
              t in reg.tierOrder && StaysInTheRunning(reg, sel, c, run, planned, t)
  {
    var plan := SettingOf(reg, sel, limits, planned, c, planTier, env);
    var s := SettingOf(reg, sel, limits, run, c, runTier, env);
    forall t ensures Reachable(s, t) <==> WithinReach(reg, c, runTier, t) {
      WithinReachIsReachable(reg, sel, limits, run, c, runTier, env, t);
    }
    forall t, m
      ensures m in RankedAt(s, t) <==> Survives(sel, run, Candidates(reg, t, c), c, m)
      ensures m in RankedAt(plan, t) <==> Survives(sel, planned, Candidates(reg, t, c), c, m)
    {
      RankedIffSurviving(reg, sel, limits, run, c, runTier, env, t, m);
      RankedIffSurviving(reg, sel, limits, planned, c, planTier, env, t, m);
    }
    forall t | WithinReach(reg, c, runTier, t) ensures exists m :: m in RankedAt(s, t) {
      assert Reachable(s, t) && RankedAt(s, t) != [];
      assert RankedAt(s, t)[0] in RankedAt(s, t);
    }
    hide Reachable, WithinReach, RankedAt, Survives, Candidates;
  }

  lemma WithoutACeiling(reg: Registry, sel: Selector, c: Constraints, planned: PromptFeatures, run: PromptFeatures,
                        t: Tier)
    requires RequiredTokens(sel, planned) <= RequiredTokens(sel, run) && c.maxCostUsd.None?
    ensures StaysInTheRunning(reg, sel, c, run, planned, t) <==>
            DropsNobody(sel, planned, Candidates(reg, t, c)) || SomebodyFits(sel, run, Candidates(reg, t, c))
  {
    var candidates := Candidates(reg, t, c);
    ContextTestsNestIff(sel, planned, run, candidates);
    forall f, m ensures Survives(sel, f, candidates, c, m) <==> PassesContext(sel, f, candidates, m) {
    }
    hide Candidates, Survives, PassesContext, DropsNobody, SomebodyFits;
  }

  /**
    Without a cost ceiling and with a payload no smaller than planned, this is: in every tier the run can reach the
    plan turned nobody away, or somebody fits the run.
   */
  lemma PlanCoversLargerRunsIff(reg: Registry, sel: Selector, limits: Limits, c: Constraints, planned: PromptFeatures,
                                run: PromptFeatures, planTier: Tier, runTier: Tier, env: Environment)
    requires WellFormed(reg) && planTier in reg.tierOrder
    requires RequiredTokens(sel, planned) <= RequiredTokens(sel, run) && c.maxCostUsd.None?
    ensures var plan := SettingOf(reg, sel, limits, planned, c, planTier, env);
            var s := SettingOf(reg, sel, limits, run, c, runTier, env);
            var covered := reg.maxAttempts <= 0 ||
                           forall t :: WithinReach(reg, c, runTier, t) ==>
                             && t in reg.tierOrder
                             && (DropsNobody(sel, planned, Candidates(reg, t, c)) ||
                                 SomebodyFits(sel, run, Candidates(reg, t, c)));
            (CoversConsulted(plan, s) <==> covered) && (CoversInvoked(plan, s) <==> covered)
  {
    forall t
      ensures StaysInTheRunning(reg, sel, c, run, planned, t) <==>
              DropsNobody(sel, planned, Candidates(reg, t, c)) || SomebodyFits(sel, run, Candidates(reg, t, c))
    {
      WithoutACeiling(reg, sel, c, planned, run, t);
    }
    hide StaysInTheRunning, WithinReach, DropsNobody, SomebodyFits, CoversConsulted, CoversInvoked, Candidates;
    PlanCoversRunsIff(reg, sel, limits, c, planned, run, planTier, runTier, env);
  }

  /** Messages only add to what a request needs. */
  lemma MessagesOnlyAdd(sel: Selector, f: PromptFeatures, messages: seq<Message>, c: Constraints)
    ensures RequiredTokens(sel, RoutedFeatures(f, [], c)) <= RequiredTokens(sel, RoutedFeatures(f, messages, c))
  {
    hide TotalTokens, LastUserTokens;
  }

  /** So it is for one request, planned without its messages and run with them, whatever tiers the two start on. */
  lemma RequestIsCoveredIff(reg: Registry, sel: Selector, limits: Limits, c: Constraints, f: PromptFeatures,
                            messages: seq<Message>, planTier: Tier, runTier: Tier, env: Environment)
    requires WellFormed(reg) && planTier in reg.tierOrder && c.maxCostUsd.None?
    ensures var planned, run := RoutedFeatures(f, [], c), RoutedFeatures(f, messages, c);
            CoversInvoked(SettingOf(reg, sel, limits, planned, c, planTier, env),
                          SettingOf(reg, sel, limits, run, c, runTier, env)) <==>
            reg.maxAttempts <= 0 ||
            forall t :: WithinReach(reg, c, runTier, t) ==>
              && t in reg.tierOrder
              && (DropsNobody(sel, planned, Candidates(reg, t, c)) ||
                  SomebodyFits(sel, run, Candidates(reg, t, c)))
  {
    MessagesOnlyAdd(sel, f, messages, c);
    hide RoutedFeatures, WithinReach, DropsNobody, SomebodyFits, CoversConsulted, CoversInvoked, Candidates;
    PlanCoversLargerRunsIff(reg, sel, limits, c, RoutedFeatures(f, [], c), RoutedFeatures(f, messages, c),
                            planTier, runTier, env);
  }

  // A cheap small model and a dear large one on T0, a request that fits only the large one, and messages that fit
  // neither.

  function Small(): Candidate {
    Candidate("p", "small", {}, T0, 0.0, 0.0, 1000, {}, "free", true, true)
  }

  function Large(): Candidate {
    Candidate("p", "large", {}, T0, 1.0, 1.0, 10000, {}, "free", true, true)
  }

  function TwoModels(): Registry {
    Registry([Small(), Large()], [T0, T1, T2, T3], {}, 2, 12000)
  }

  function Sorter(): Selector { Selector(200, (k: ModelKey) => 1.0) }

  function Unconstrained(): Constraints { Constraints(None, None, None, None, None, None, None, false, false) }

  function Request(): PromptFeatures {
    PromptFeatures(2000, 0, 0, false, false, false, false, false, false, false, false, false, General, false)
  }

  /** 60,000 bytes from the user: 20,000 tokens. */
  function LongMessages(): seq<Message> { [Message(true, 60000)] }

  lemma Payloads()
    ensures RequiredTokens(Sorter(), RoutedFeatures(Request(), [], Unconstrained())) == 2200
    ensures RequiredTokens(Sorter(), RoutedFeatures(Request(), LongMessages(), Unconstrained())) == 20200
  {
    assert LongMessages()[..0] == [];
  }

  lemma BothAreCandidates()
    ensures Candidates(TwoModels(), T0, Unconstrained()) == [Small(), Large()]
    ensures StartsOn(TwoModels(), Unconstrained(), T0, T0)
  {
    var keep := EligibleFor(TwoModels(), T0, Unconstrained());
    assert TwoModels().models[1..] == [Large()] && [Large()][1..] == [];
    assert Filter([Large()], keep) == [Large()];
  }

  lemma SmallIsNotPlanned()
    ensures var r := Ranked(TwoModels(), Sorter(), RoutedFeatures(Request(), [], Unconstrained()), Unconstrained(), T0);
            r.Ok? && Small() !in r.value
  {
    Payloads();
    BothAreCandidates();
    LargerPayloadCanBringBack(Sorter(), RoutedFeatures(Request(), [], Unconstrained()),
                              RoutedFeatures(Request(), LongMessages(), Unconstrained()), Small(), Large(),
                              Unconstrained());
  }

  lemma NeitherFits(f: PromptFeatures)
    requires RequiredTokens(Sorter(), f) == 20200
    ensures InTheRunning(Sorter(), f, [Small(), Large()], Unconstrained()) == [Small(), Large()]
  {
    var both := [Small(), Large()];
    hide RequiredTokens;
    assert both[1..] == [Large()] && [Large()][1..] == [];
    assert forall m :: m in both ==> !Fits(Sorter(), f)(m);
    assert Filter(both, Fits(Sorter(), f)) == [] by {
      if x :| x in Filter(both, Fits(Sorter(), f)) { assert false; }
    }
    assert Filter([Large()], Enabled()) == [Large()];
  }

  lemma SmallIsCheaper(f: PromptFeatures)
    ensures RankOrder(Sorter(), f, Unconstrained())(Small(), Large())
  {
    hide IsCodingTask;
    assert Small().tags == Large().tags;
  }

  lemma SmallRanksFirst()
    ensures Ranked(TwoModels(), Sorter(), RoutedFeatures(Request(), LongMessages(), Unconstrained()), Unconstrained(),
                   T0) == Ok([Small(), Large()])
  {
    var run, c := RoutedFeatures(Request(), LongMessages(), Unconstrained()), Unconstrained();
    Payloads();
    BothAreCandidates();
    hide RoutedFeatures, RequiredTokens, InTheRunning, RankOrder, Candidates, StableSort, Small, Large;
    NeitherFits(run);
    SmallIsCheaper(run);
    StableSortOfSorted([Small(), Large()], RankOrder(Sorter(), run, c));
  }

  lemma SmallAndLargeAreTwo()
    ensures WellFormed(TwoModels())
  {
    assert "small" != "large" by { assert "small"[0] != "large"[0]; }
  }

  lemma SmallIsOutsideThePlan(limits: Limits, env: Environment)
    ensures Small().Key() !in
            Distinct(Keys(Planned(
              SettingOf(TwoModels(), Sorter(), limits, RoutedFeatures(Request(), [], Unconstrained()), Unconstrained(),
                        T0, env))))
  {
    var planned, c := RoutedFeatures(Request(), [], Unconstrained()), Unconstrained();
    var plan := SettingOf(TwoModels(), Sorter(), limits, planned, c, T0, env);
    SmallIsNotPlanned();
    forall t, m | m in RankedAt(plan, t) ensures m.Key() != Small().Key() {
      RankedMembers(TwoModels(), Sorter(), planned, c, t);
      assert m in [Small(), Large()];
    }
    hide Planned, Distinct, RankedAt, RoutedFeatures;
    PlanIsExact(plan, Small().Key());
  }

  lemma SmallIsInvoked(limits: Limits, env: Environment) returns (log: seq<Entry>)
    requires env.authoriser.None?
    ensures Lawful(SettingOf(TwoModels(), Sorter(), limits, RoutedFeatures(Request(), LongMessages(), Unconstrained()),
                             Unconstrained(), T0, env), log)
    ensures |log| == 1 && log[0].attempt.Some? && log[0].candidate == Small()
  {
    var s := SettingOf(TwoModels(), Sorter(), limits, RoutedFeatures(Request(), LongMessages(), Unconstrained()),
                       Unconstrained(), T0, env);
    SmallRanksFirst();
    assert RankedAt(s, T0) == [Small(), Large()];
    hide RankedAt, RoutedFeatures, Lawful, Ranked;
    log := FirstIsInvoked(s);
  }

  /** The run, in "cheap" mode, invokes the small model, which the plan made without the messages leaves out. */
  lemma PlanCanMissAModel(limits: Limits, thresholds: Thresholds, env: Environment)
    requires env.authoriser.None?
    ensures var reg, sel, c := TwoModels(), Sorter(), Unconstrained();
            var planned, run := RoutedFeatures(Request(), [], c), RoutedFeatures(Request(), LongMessages(), c);
            && WellFormed(reg) && StartsOn(reg, c, ChosenTier(Cheap, planned, thresholds), T0)
            && StartsOn(reg, c, ChosenTier(Cheap, run, thresholds), T0)
            && Small().Key() !in Distinct(Keys(Planned(SettingOf(reg, sel, limits, planned, c, T0, env))))
            && exists log: seq<Entry> ::
                 Lawful(SettingOf(reg, sel, limits, run, c, T0, env), log) &&
                 |log| == 1 && log[0].attempt.Some? && log[0].candidate == Small()
  {
    hide RoutedFeatures, Planned, StartsOn, Lawful, WellFormed, TwoModels, SettingOf, Distinct;
    BothAreCandidates();
    SmallAndLargeAreTwo();
    SmallIsOutsideThePlan(limits, env);
    var log := SmallIsInvoked(limits, env);
  }
}
