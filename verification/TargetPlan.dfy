/** The provider/model plan made without calling anybody (orchestrator/core.py, plan_smart_targets). */
module TargetPlan {
  import opened Prelude
  import opened Sequences
  import opened Routing
  import opened ModelRegistry
  import opened AttemptLoop
  import opened AttemptLoopProperties
  import opened AttemptLoopReach

  function Reverse<T>(s: seq<T>): (r: seq<T>)
    ensures |r| == |s|
  {
    if s == [] then [] else Reverse(s[1..]) + [s[0]]
  }

  lemma {:induction false} ReverseMembers<T(!new)>(s: seq<T>)
    ensures forall x :: x in Reverse(s) <==> x in s
  {
    if s != [] { ReverseMembers(s[1..]); }
  }

  /** Nearest lower tier first, then the higher tiers upwards. */
  function FallbackTiers(order: seq<Tier>, tier: Tier): seq<Tier>
    requires tier in order
  {
    var i := IndexOf(order, tier);
    Reverse(order[..i]) + order[i + 1..]
  }

  lemma FallbackTiersAreTheOthers(order: seq<Tier>, tier: Tier)
    requires tier in order
    ensures forall t :: t in FallbackTiers(order, tier) || t == tier <==> t in order
    ensures NoDuplicates(order) ==> tier !in FallbackTiers(order, tier)
  {
    var i := IndexOf(order, tier);
    ReverseMembers(order[..i]);
    assert order == order[..i] + [order[i]] + order[i + 1..];
  }

  /** The rankings of several tiers, one after the other; a tier without candidates contributes nothing. */
  function RankedOver(s: Setting, tiers: seq<Tier>): seq<Candidate> {
    if tiers == [] then [] else RankedOver(s, Front(tiers)) + RankedAt(s, Last(tiers))
  }

  lemma {:induction false} RankedOverMembers(s: Setting, tiers: seq<Tier>, m: Candidate)
    ensures m in RankedOver(s, tiers) <==> exists t :: t in tiers && m in RankedAt(s, t)
  {
    if tiers != [] {
      RankedOverMembers(s, Front(tiers), m);
      assert forall t :: t in tiers <==> t in Front(tiers) || t == Last(tiers);
    }
  }

  function Keys(candidates: seq<Candidate>): (r: seq<ModelKey>)
    ensures |r| == |candidates|
    ensures forall i :: 0 <= i < |r| ==> r[i] == candidates[i].Key()
  {
    seq(|candidates|, i requires 0 <= i < |candidates| => candidates[i].Key())
  }

  /** Everything the plan goes through, duplicates included. */
  function Planned(s: Setting): seq<Candidate>
    requires s.initialTier in s.order
  {
    RankedAt(s, s.initialTier) + RankedOver(s, FallbackTiers(s.order, s.initialTier))
  }

  method PlanSmartTargets(s: Setting, ordered: seq<Candidate>) returns (r: Result<seq<ModelKey>, RoutingError>)
    requires s.ranking(s.initialTier) == Ok(ordered)
    ensures r.Err? <==> s.initialTier !in s.order
    ensures r.Ok? ==> r.value == Distinct(Keys(Planned(s)))
  {
    if s.initialTier !in s.order { return Err(InvalidTier); }
    var planned := ordered;
    var tiers := FallbackTiers(s.order, s.initialTier);
    for i := 0 to |tiers|
      invariant planned == ordered + RankedOver(s, tiers[..i])
    {
      assert Front(tiers[..i + 1]) == tiers[..i] && Last(tiers[..i + 1]) == tiers[i];
      var selection := s.ranking(tiers[i]);
      if selection.Ok? {
        planned := planned + selection.value;
      }
    }
    assert tiers[..|tiers|] == tiers;
    var result := FirstOccurrences(planned);
    r := Ok(result);
  }

  /** One pass with a seen-set. */
  method FirstOccurrences(planned: seq<Candidate>) returns (result: seq<ModelKey>)
    ensures result == Distinct(Keys(planned))
  {
    result := [];
    var seen := {};
    ghost var keys := Keys(planned);
    for i := 0 to |planned|
      invariant result == Distinct(keys[..i])
      invariant forall k :: k in seen <==> k in keys[..i]
    {
      assert keys[..i + 1] == keys[..i] + [keys[i]] && keys[..i + 1][..i] == keys[..i];
      var key := planned[i].Key();
      if key !in seen {
        seen := seen + {key};
        result := result + [key];
      }
    }
    assert keys[..|planned|] == keys;
  }

  /** The plan lists each model once, in order of first occurrence, and exactly the models some tier ranks. */
  lemma PlanIsExact(s: Setting, key: ModelKey)
    requires s.initialTier in s.order
    ensures NoDuplicates(Distinct(Keys(Planned(s))))
    ensures key in Distinct(Keys(Planned(s))) <==> exists t, m :: t in s.order && m in RankedAt(s, t) && m.Key() == key
  {
    var planned := Planned(s);
    var others := FallbackTiers(s.order, s.initialTier);
    DistinctMembers(Keys(planned));
    FallbackTiersAreTheOthers(s.order, s.initialTier);
    if key in Keys(planned) {
      var i :| 0 <= i < |planned| && Keys(planned)[i] == key;
      RankedOverMembers(s, others, planned[i]);
      assert planned[i] in RankedAt(s, s.initialTier) || planned[i] in RankedOver(s, others);
    }
    if t, m :| t in s.order && m in RankedAt(s, t) && m.Key() == key {
      RankedOverMembers(s, others, m);
      assert m in planned;
      var i :| 0 <= i < |planned| && planned[i] == m;
      assert Keys(planned)[i] == key;
    }
  }

  // -- when a plan covers a run ----------------------------------------------------------------------

  /** The plan ranks, in the same tier, whatever the run ranks in a tier it can reach. */
  ghost predicate RanksAllReachable(plan: Setting, s: Setting) {
    forall t, m :: Reachable(s, t) && m in RankedAt(s, t) ==> t in plan.order && m in RankedAt(plan, t)
  }

  /** Whatever the outside world does, every model such a run consults is in the plan. */
  lemma PlanCoversEveryRunOf(plan: Setting, s: Setting, log: seq<Entry>, i: nat)
    requires WellBehaved(s) && Lawful(s, log) && i < |log|
    requires plan.initialTier in plan.order && RanksAllReachable(plan, s)
    ensures log[i].candidate.Key() in Distinct(Keys(Planned(plan)))
  {
    hide Lawful, Planned, RankedAt, WellBehaved, IndexOf, Reachable;
    EntriesAreRanked(s, log, i);
    EntriesAreReachable(s, log, i);
    var e := log[i];
    assert e.candidate in RankedAt(s, e.tier) && e.candidate in RankedAt(plan, e.tier);
    PlanIsExact(plan, log[i].candidate.Key());
  }

  /** For equal features, constraints and initial tier, the plan covers every run. */
  lemma PlanCoversEveryRun(s: Setting, log: seq<Entry>, i: nat)
    requires WellBehaved(s) && s.initialTier in s.order
    requires Lawful(s, log) && i < |log|
    ensures log[i].candidate.Key() in Distinct(Keys(Planned(s)))
  {
    hide Lawful, Planned, RankedAt, WellBehaved, IndexOf;
    PlanCoversEveryRunOf(s, s, log, i);
  }

  /** In no world does a run consult a model outside the plan. */
  ghost predicate CoversConsulted(plan: Setting, s: Setting)
    requires plan.initialTier in plan.order
  {
    forall env, log: seq<Entry>, i: nat :: Lawful(s.(env := env), log) && i < |log| ==>
      log[i].candidate.Key() in Distinct(Keys(Planned(plan)))
  }

  /** In no world does a run invoke a model outside the plan. */
  ghost predicate CoversInvoked(plan: Setting, s: Setting)
    requires plan.initialTier in plan.order
  {
    forall env, log: seq<Entry>, i: nat :: Lawful(s.(env := env), log) && i < |log| && log[i].attempt.Some? ==>
      log[i].candidate.Key() in Distinct(Keys(Planned(plan)))
  }

  /** Both rank models of one catalogue: a key names one model, in one tier. */
  ghost predicate OneCatalogue(plan: Setting, s: Setting) {
    forall t, u, m, n :: m in RankedAt(s, t) && n in RankedAt(plan, u) && m.Key() == n.Key() ==> t == u && m == n
  }

  /**
    A plan covers all a run can consult, and all it can invoke, exactly when no attempt is allowed or the plan
    ranks whatever the run ranks in a tier it can reach.
   */
  lemma PlanCoversIff(plan: Setting, s: Setting)
    requires WellBehaved(s) && plan.initialTier in plan.order && OneCatalogue(plan, s)
    ensures CoversConsulted(plan, s) <==> s.policy.maxAttempts <= 0 || RanksAllReachable(plan, s)
    ensures CoversInvoked(plan, s) <==> s.policy.maxAttempts <= 0 || RanksAllReachable(plan, s)
  {
    hide Lawful, Planned, RankedAt, WellBehaved, Reachable, OneCatalogue;
    if s.policy.maxAttempts <= 0 || RanksAllReachable(plan, s) {
      forall env, log: seq<Entry>, i: nat | Lawful(s.(env := env), log) && i < |log|
        ensures log[i].candidate.Key() in Distinct(Keys(Planned(plan)))
      {
        ConsultedIsPlanned(plan, s, env, log, i);
      }
    } else {
      var t, m :| Reachable(s, t) && m in RankedAt(s, t) && !(t in plan.order && m in RankedAt(plan, t));
      UnrankedIsUnplanned(plan, s, t, m);
      InvokableIff(s, t, m);
      var env, log: seq<Entry>, i :| Invokes(s, env, log, i, t, m);
      assert !CoversInvoked(plan, s) && !CoversConsulted(plan, s);
    }
  }

  lemma ConsultedIsPlanned(plan: Setting, s: Setting, env: Environment, log: seq<Entry>, i: nat)
    requires WellBehaved(s) && plan.initialTier in plan.order
    requires s.policy.maxAttempts <= 0 || RanksAllReachable(plan, s)
    requires Lawful(s.(env := env), log) && i < |log|
    ensures log[i].candidate.Key() in Distinct(Keys(Planned(plan)))
  {
    hide Lawful, Planned, RankedAt, WellBehaved, Reachable;
    WorldsRankAlike(s, env);
    ConsultedIsReachable(s, env, log, i, log[i].tier, log[i].candidate);
    PlanCoversEveryRunOf(plan, s.(env := env), log, i);
  }

  lemma UnrankedIsUnplanned(plan: Setting, s: Setting, t: Tier, m: Candidate)
    requires plan.initialTier in plan.order && OneCatalogue(plan, s) && m in RankedAt(s, t)
    requires !(t in plan.order && m in RankedAt(plan, t))
    ensures m.Key() !in Distinct(Keys(Planned(plan)))
  {
    hide Planned, RankedAt, Distinct;
    PlanIsExact(plan, m.Key());
  }

  // -- in which order the plan lists -----------------------------------------------------------------

  lemma {:induction false} ReverseAt<T>(s: seq<T>, k: nat)
    requires k < |s|
    ensures Reverse(s)[k] == s[|s| - 1 - k]
  {
    if k < |s| - 1 {
      ReverseAt(s[1..], k);
    }
  }

  /** The tiers after the initial one: downwards from it first, then upwards. */
  lemma FallbackOrder(order: seq<Tier>, tier: Tier, k: nat)
    requires tier in order && k + 1 < |order|
    ensures |FallbackTiers(order, tier)| == |order| - 1
    ensures FallbackTiers(order, tier)[k] ==
            if k < IndexOf(order, tier) then order[IndexOf(order, tier) - 1 - k] else order[k + 1]
  {
    var i := IndexOf(order, tier);
    if k < i { ReverseAt(order[..i], k); }
  }

  /** How many models the first `a` tiers rank. */
  function Before(s: Setting, tiers: seq<Tier>, a: nat): nat
    requires a <= |tiers|
  {
    if a == 0 then 0 else Before(s, tiers, a - 1) + |RankedAt(s, tiers[a - 1])|
  }

  lemma {:induction false} RankedOverAt(s: Setting, tiers: seq<Tier>, a: nat, p: nat)
    requires a < |tiers| && p < |RankedAt(s, tiers[a])|
    ensures |RankedOver(s, tiers)| == Before(s, tiers, |tiers|) >= Before(s, tiers, a) + |RankedAt(s, tiers[a])|
    ensures RankedOver(s, tiers)[Before(s, tiers, a) + p] == RankedAt(s, tiers[a])[p]
  {
    RankedOverLength(s, tiers);
    var front := Front(tiers);
    BeforeOfFront(s, tiers, a);
    BeforeOfFront(s, tiers, |front|);
    RankedOverLength(s, front);
    hide RankedAt;
    if a < |front| { RankedOverAt(s, front, a, p); }
  }

  lemma {:induction false} RankedOverLength(s: Setting, tiers: seq<Tier>)
    ensures |RankedOver(s, tiers)| == Before(s, tiers, |tiers|)
  {
    if tiers != [] {
      RankedOverLength(s, Front(tiers));
      BeforeOfFront(s, tiers, |tiers| - 1);
    }
  }

  lemma {:induction false} BeforeOfFront(s: Setting, tiers: seq<Tier>, a: nat)
    requires tiers != [] && a < |tiers|
    ensures Before(s, Front(tiers), a) == Before(s, tiers, a)
  {
    if a > 0 { BeforeOfFront(s, tiers, a - 1); }
  }

  /** The models are gone through tier by tier, the initial one first, each in the order of its ranking. */
  lemma PlannedInOrder(s: Setting, a: nat, p: nat)
    requires s.initialTier in s.order
    requires var tiers := [s.initialTier] + FallbackTiers(s.order, s.initialTier);
             a < |tiers| && p < |RankedAt(s, tiers[a])|
    ensures var tiers := [s.initialTier] + FallbackTiers(s.order, s.initialTier);
            Before(s, tiers, a) + p < |Planned(s)| && Planned(s)[Before(s, tiers, a) + p] == RankedAt(s, tiers[a])[p]
  {
    var others := FallbackTiers(s.order, s.initialTier);
    var tiers := [s.initialTier] + others;
    BeforeAll(s, s.initialTier, others, a);
    if a > 0 { RankedOverAt(s, others, a - 1, p); }
  }

  lemma {:induction false} BeforeAll(s: Setting, first: Tier, others: seq<Tier>, a: nat)
    requires a <= |others| + 1
    ensures Before(s, [first] + others, a) ==
            if a == 0 then 0 else |RankedAt(s, first)| + Before(s, others, a - 1)
  {
    if a > 1 { BeforeAll(s, first, others, a - 1); }
  }
}
