/**
  A whole smart run with the real collaborators in place: routable providers, plan, attempt loop
  (orchestrator/core.py).
 */
module SmartRun {
  import opened Prelude
  import opened Sequences
  import opened Routing
  import opened TierDecider
  import opened ModelRegistry
  import opened ModelSelector
  import opened SmartRouter
  import opened FallbackManager
  import opened ResponseValidator
  import opened AttemptLoop
  import opened AttemptLoopProperties

  /** The registry, selector and validator as the loop's collaborators. */
  function SettingOf(reg: Registry, sel: Selector, limits: Limits, f: PromptFeatures, c: Constraints, initialTier: Tier,
                     env: Environment): Setting
  {
    Setting(
      reg.tierOrder,
      (t: Tier) => Ranked(reg, sel, f, c, t),
      (r: Response) => Validate(f, c, limits, r),
      Policy(reg.maxAttempts,
             if c.maxTotalLatencyMs.Some? then c.maxTotalLatencyMs.value else reg.maxTotalLatencyMs,
             true),
      initialTier,
      env)
  }

  /** With unique model keys, the real rankings put every model in exactly one place. */
  lemma SettingOfIsWellBehaved(reg: Registry, sel: Selector, limits: Limits, f: PromptFeatures, c: Constraints,
                               initialTier: Tier, env: Environment)
    requires WellFormed(reg)
    ensures WellBehaved(SettingOf(reg, sel, limits, f, c, initialTier, env))
  {
    var s := SettingOf(reg, sel, limits, f, c, initialTier, env);
    assert initialTier in s.order ==> RisesFrom(s.order, initialTier);
    forall t ensures s.ranking(t).Ok? ==> s.ranking(t).value != [] {
      if s.ranking(t).Ok? { RankingIsProper(reg, sel, f, c, t); }
    }
    forall t, u, i, j | 0 <= i < |RankedAt(s, t)| && 0 <= j < |RankedAt(s, u)| &&
                        RankedAt(s, t)[i].Key() == RankedAt(s, u)[j].Key()
      ensures t == u && i == j
    {
      RankingIsProper(reg, sel, f, c, t);
      RankingIsProper(reg, sel, f, c, u);
      KeysIdentifyModels(reg, RankedAt(s, t)[i], RankedAt(s, u)[j]);
    }
  }

  lemma RankingIsProper(reg: Registry, sel: Selector, f: PromptFeatures, c: Constraints, t: Tier)
    requires WellFormed(reg) && Ranked(reg, sel, f, c, t).Ok?
    ensures var r := Ranked(reg, sel, f, c, t).value;
            r != [] && NoDuplicates(r) && forall m :: m in r ==> m in reg.models && Eligible(reg, t, c, m)
  {
    RankedMembers(reg, sel, f, c, t);
    RankedNoDuplicates(reg, sel, f, c, t);
    SelectRaisesIff(sel, f, Candidates(reg, t, c), c);
  }

  /** Restrict a request to routable providers; asking for none in particular means all of them. */
  function ConstrainToRoutable(c: Constraints, routable: set<string>): Constraints {
    var available :=
      if c.allowedProviders.None? || c.allowedProviders.value == {} then routable
      else c.allowedProviders.value * routable;
    var preferred :=
      if c.preferredProvider.Some? && c.preferredProvider.value != "" &&
        c.preferredProvider.value !in available then None
      else c.preferredProvider;
    c.(allowedProviders := Some(available), preferredProvider := preferred)
  }

  datatype Outcome = NoRoutableProviders | PlanFailed(error: RoutingError) | Ran(ending: Ending, log: seq<Entry>)

  /** What a caller may rely on for every model consulted at a tier. */
  predicate Permitted(reg: Registry, c: Constraints, routable: set<string>, tier: Tier, m: Candidate) {
    && m in reg.models && m.enabled && m.selectable && m.tier == tier
    && m.provider in routable
    && (c.allowedProviders.Some? && c.allowedProviders.value != {} ==> m.provider in c.allowedProviders.value)
    && (c.allowedBillingClasses.Some? ==> m.billingClass in c.allowedBillingClasses.value)
    && (c.allowedModels.Some? ==> m.Key() in c.allowedModels.value)
    && (c.minContextLimit.Some? ==> m.contextLimit >= c.minContextLimit.value)
  }

  /** Being eligible under the routable restriction is being permitted by the original request. */
  lemma EligibleIffPermitted(reg: Registry, c: Constraints, routable: set<string>, tier: Tier, m: Candidate)
    requires ConstrainToRoutable(c, routable).allowedProviders.value != {}
    ensures m in reg.models && Eligible(reg, tier, ConstrainToRoutable(c, routable), m) <==>
            Permitted(reg, c, routable, tier, m)
  {
  }

  lemma {:induction false} EntriesArePermitted(reg: Registry, sel: Selector, limits: Limits, f: PromptFeatures,
                                               c: Constraints, routable: set<string>, s: Setting, log: seq<Entry>,
                                               i: nat)
    requires ConstrainToRoutable(c, routable).allowedProviders.value != {}
    requires s == SettingOf(reg, sel, limits, f, ConstrainToRoutable(c, routable), s.initialTier, s.env)
    requires Lawful(s, log) && i < |log|
    ensures Permitted(reg, c, routable, log[i].tier, log[i].candidate)
  {
    EntriesAreRanked(s, log, i);
    hide Lawful, Permitted, Eligible, ConstrainToRoutable, Ranked;
    RankedMembers(reg, sel, f, ConstrainToRoutable(c, routable), log[i].tier);
    EligibleIffPermitted(reg, c, routable, log[i].tier, log[i].candidate);
  }

  /**
    One smart run, end to end. Nothing is invoked unless permitted, nothing twice, at most
    `max_attempts` times; a response reported as valid is never an error.
   */
  method RunSmart(reg: Registry, sel: Selector, thresholds: Thresholds, limits: Limits, analysed: PromptFeatures,
                  messages: seq<Message>, mode: Mode, c: Constraints, routable: set<string>, env: Environment)
    returns (outcome: Outcome)
    requires WellFormed(reg)
    ensures outcome == NoRoutableProviders <==> ConstrainToRoutable(c, routable).allowedProviders == Some({})
    ensures outcome.Ran? ==> forall i :: 0 <= i < |outcome.log| ==>
              && Permitted(reg, c, routable, outcome.log[i].tier, outcome.log[i].candidate)
              && (outcome.log[i].attempt.Some? <==> Admits(env, i, outcome.log[i].candidate))
    ensures outcome.Ran? ==> forall i, j :: 0 <= i < j < |outcome.log| ==>
              outcome.log[i].candidate.Key() != outcome.log[j].candidate.Key()
    ensures outcome.Ran? ==> |Attempts(outcome.log)| <= Max(0, reg.maxAttempts)
    ensures outcome.Ran? && outcome.ending.Validated? ==> !outcome.ending.response.isError
  {
    var constrained := ConstrainToRoutable(c, routable);
    if constrained.allowedProviders == Some({}) { return NoRoutableProviders; }
    var planned := RouteOncePlan(reg, sel, thresholds, analysed, messages, mode, constrained);
    if planned.Err? { return PlanFailed(planned.error); }
    var plan := planned.value;
    var s := SettingOf(reg, sel, limits, plan.features, constrained, plan.tier, env);
    assert s.ranking(s.initialTier) == Ok(plan.ordered);
    SettingOfIsWellBehaved(reg, sel, limits, plan.features, constrained, plan.tier, env);
    var ending, log, _ := RunAttemptLoop(s, plan.ordered);
    RunIsSound(reg, sel, limits, plan.features, c, routable, s, log, ending);
    outcome := Ran(ending, log);
  }

  lemma {:induction false} RunIsSound(reg: Registry, sel: Selector, limits: Limits, f: PromptFeatures, c: Constraints,
                                      routable: set<string>, s: Setting, log: seq<Entry>, ending: Ending)
    requires WellFormed(reg)
    requires ConstrainToRoutable(c, routable).allowedProviders.value != {}
    requires s == SettingOf(reg, sel, limits, f, ConstrainToRoutable(c, routable), s.initialTier, s.env)
    requires Lawful(s, log) && LawfulEnding(s, log, ending)
    ensures forall i :: 0 <= i < |log| ==>
              && Permitted(reg, c, routable, log[i].tier, log[i].candidate)
              && (log[i].attempt.Some? <==> Admits(s.env, i, log[i].candidate))
    ensures forall i, j :: 0 <= i < j < |log| ==> log[i].candidate.Key() != log[j].candidate.Key()
    ensures |Attempts(log)| <= Max(0, reg.maxAttempts)
    ensures ending.Validated? ==> !ending.response.isError
  {
    hide Lawful, Permitted, LawfulEnding, WellBehaved, Validate;
    SettingOfIsWellBehaved(reg, sel, limits, f, ConstrainToRoutable(c, routable), s.initialTier, s.env);
    forall i | 0 <= i < |log|
      ensures Permitted(reg, c, routable, log[i].tier, log[i].candidate)
      ensures log[i].attempt.Some? <==> Admits(s.env, i, log[i].candidate)
    {
      EntriesArePermitted(reg, sel, limits, f, c, routable, s, log, i);
      EntriesAreRanked(s, log, i);
    }
    forall i, j | 0 <= i < j < |log| ensures log[i].candidate.Key() != log[j].candidate.Key() {
      NoModelTwice(s, log, i, j);
    }
    AttemptsAreNumbered(s, log);
    if ending.Validated? {
      ValidatedIsTheLastAttempt(s, log, ending.response);
    }
  }

  /** Only providers that are routable and asked for stay; a preference for any other is dropped. */
  lemma ConstrainedProviders(c: Constraints, routable: set<string>, provider: string)
    ensures var r := ConstrainToRoutable(c, routable);
            && r.allowedProviders.Some?
            && (provider in r.allowedProviders.value <==>
                  provider in routable &&
                  (c.allowedProviders.Some? && c.allowedProviders.value != {} ==> provider in c.allowedProviders.value))
            && r.preferredProvider == (if c.preferredProvider.Some? && c.preferredProvider.value != "" &&
                                          c.preferredProvider.value !in r.allowedProviders.value then None
                                       else c.preferredProvider)
            && r == c.(allowedProviders := r.allowedProviders, preferredProvider := r.preferredProvider)
  {
  }

  /** The policy of a run: the registry's attempts, the request's time if it sets one, and always leave to go up. */
  lemma PolicyOfARun(reg: Registry, sel: Selector, limits: Limits, f: PromptFeatures, c: Constraints, tier: Tier,
                     env: Environment)
    ensures var p := SettingOf(reg, sel, limits, f, c, tier, env).policy;
            && p.maxAttempts == reg.maxAttempts && p.allowEscalation
            && (c.maxTotalLatencyMs.None? ==> p.maxTotalLatencyMs == reg.maxTotalLatencyMs)
            && (c.maxTotalLatencyMs.Some? ==> c.maxTotalLatencyMs == Some(p.maxTotalLatencyMs))
  {
  }
}
