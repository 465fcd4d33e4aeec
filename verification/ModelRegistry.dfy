/** The model registry's queries (orchestrator/model_registry.py); loading it is left out. */
module ModelRegistry {
  import opened Prelude
  import opened Sequences
  import opened Routing

  /** `models` lists every provider's models in registry order. */
  datatype Registry = Registry(
    models: seq<Candidate>,
    tierOrder: seq<Tier>,
    allowProviders: set<string>,
    maxAttempts: int,
    maxTotalLatencyMs: int)

  /** What the loader's configuration promises: each model once, each tier at most once. */
  ghost predicate WellFormed(reg: Registry) {
    && NoDuplicates(reg.tierOrder)
    && forall i, j :: 0 <= i < j < |reg.models| ==> reg.models[i].Key() != reg.models[j].Key()
  }

  /** Position of a tier in the configured order: the first occurrence. */
  function IndexOf(order: seq<Tier>, t: Tier): (i: nat)
    requires t in order
    ensures i < |order| && order[i] == t
    ensures forall j :: 0 <= j < i ==> order[j] != t
  {
    if order[0] == t then 0 else 1 + IndexOf(order[1..], t)
  }

  function NextTier(order: seq<Tier>, t: Tier): (r: Result<Option<Tier>, RoutingError>)
    ensures r.Err? <==> t !in order
    ensures r == Ok(None) <==> t in order && IndexOf(order, t) + 1 == |order|
  {
    if t !in order then Err(InvalidTier)
    else
      var i := IndexOf(order, t);
      if i + 1 >= |order| then Ok(None) else Ok(Some(order[i + 1]))
  }

  /** From the tier's first position on, the order never goes back to a tier it has already listed. */
  predicate RisesFrom(order: seq<Tier>, t: Tier) {
    t in order && forall j :: IndexOf(order, t) <= j < |order| ==> order[j] !in order[..j]
  }

  /** Where the order rises, stepping up moves exactly one position, and goes on rising from there. */
  lemma NextTierClimbs(order: seq<Tier>, t: Tier)
    requires RisesFrom(order, t) && NextTier(order, t).value.Some?
    ensures var next := NextTier(order, t).value.value;
            RisesFrom(order, next) && IndexOf(order, next) == IndexOf(order, t) + 1
  {
    var i := IndexOf(order, t) + 1;
    assert order[i] !in order[..i];
    assert forall j :: 0 <= j < i ==> order[j] in order[..i];
  }

  /** The tier reached from `t` by n steps up, if there are that many. */
  function ClimbedTo(order: seq<Tier>, t: Tier, n: nat): (r: Option<Tier>)
    requires t in order
    ensures r.Some? ==> r.value in order
  {
    if n == 0 then Some(t)
    else
      var below := ClimbedTo(order, t, n - 1);
      if below.None? then None else NextTier(order, below.value).value
  }

  lemma {:induction false} RisingClimb(order: seq<Tier>, t: Tier, n: nat)
    requires RisesFrom(order, t) && IndexOf(order, t) + n < |order|
    ensures ClimbedTo(order, t, n).Some? && RisesFrom(order, ClimbedTo(order, t, n).value)
    ensures IndexOf(order, ClimbedTo(order, t, n).value) == IndexOf(order, t) + n
  {
    if n > 0 {
      RisingClimb(order, t, n - 1);
      NextTierClimbs(order, ClimbedTo(order, t, n - 1).value);
    }
  }

  /** Below a position that repeats an earlier tier the climb is caught for good. */
  lemma {:induction false} CaughtClimb(order: seq<Tier>, t: Tier, n: nat, j: nat)
    requires t in order && IndexOf(order, t) < j < |order| && order[j] in order[..j]
    ensures ClimbedTo(order, t, n).Some? && IndexOf(order, ClimbedTo(order, t, n).value) < j
  {
    if n > 0 {
      CaughtClimb(order, t, n - 1, j);
      var next := NextTier(order, ClimbedTo(order, t, n - 1).value).value.value;
      assert forall k :: 0 <= k < |order| && order[k] == next ==> IndexOf(order, next) <= k;
    }
  }

  /** The climb from a tier comes to the top exactly when nothing from there on repeats an earlier tier. */
  lemma ClimbEndsIff(order: seq<Tier>, t: Tier)
    requires t in order
    ensures (exists n: nat :: ClimbedTo(order, t, n).None?) <==> RisesFrom(order, t)
  {
    if RisesFrom(order, t) {
      var n := |order| - 1 - IndexOf(order, t);
      RisingClimb(order, t, n);
      assert ClimbedTo(order, t, n + 1).None?;
    } else {
      var j :| IndexOf(order, t) <= j < |order| && order[j] in order[..j];
      forall n: nat ensures ClimbedTo(order, t, n).Some? {
        CaughtClimb(order, t, n, j);
      }
    }
  }

  /** An explicitly empty provider list restricts nothing, exactly as in the source. */
  predicate ProviderAllowed(reg: Registry, c: Constraints, provider: string) {
    var allowed := match c.allowedProviders case Some(p) => p case None => reg.allowProviders;
    allowed == {} || provider in allowed
  }

  predicate Eligible(reg: Registry, tier: Tier, c: Constraints, m: Candidate) {
    && ProviderAllowed(reg, c, m.provider)
    && m.enabled
    && m.selectable
    && m.tier == tier
    && (c.allowedBillingClasses.Some? ==> m.billingClass in c.allowedBillingClasses.value)
    && (c.allowedModels.Some? ==> m.Key() in c.allowedModels.value)
    && (c.minContextLimit.Some? ==> m.contextLimit >= c.minContextLimit.value)
  }

  function EligibleFor(reg: Registry, tier: Tier, c: Constraints): Candidate -> bool {
    (m: Candidate) => Eligible(reg, tier, c, m)
  }

  /** The registry's candidates for one tier, in registry order. */
  function Candidates(reg: Registry, tier: Tier, c: Constraints): seq<Candidate> {
    Filter(reg.models, EligibleFor(reg, tier, c))
  }

  method GetCandidates(reg: Registry, tier: Tier, c: Constraints) returns (results: seq<Candidate>)
    ensures results == Candidates(reg, tier, c)
  {
    results := [];
    for i := 0 to |reg.models|
      invariant results == Filter(reg.models[..i], EligibleFor(reg, tier, c))
    {
      var m := reg.models[i];
      assert reg.models[..i + 1] == reg.models[..i] + [m];
      FilterConcat(reg.models[..i], [m], EligibleFor(reg, tier, c));
      assert Filter([m], EligibleFor(reg, tier, c)) == if Eligible(reg, tier, c, m) then [m] else [];
      hide Filter;
      if ProviderAllowed(reg, c, m.provider) {
        if m.enabled && m.selectable && m.tier == tier {
          if (c.allowedBillingClasses.None? || m.billingClass in c.allowedBillingClasses.value) &&
             (c.allowedModels.None? || m.Key() in c.allowedModels.value) &&
             (c.minContextLimit.None? || m.contextLimit >= c.minContextLimit.value)
          {
            results := results + [m];
          }
        }
      }
    }
    assert reg.models[..|reg.models|] == reg.models;
  }

  predicate Named(m: Candidate, key: ModelKey) {
    m.provider == key.provider && (m.model == key.model || key.model in m.aliases)
  }

  function FindModel(models: seq<Candidate>, key: ModelKey): (r: Option<Candidate>)
    ensures r.Some? ==> r.value in models && Named(r.value, key)
    ensures r.None? ==> forall m :: m in models ==> !Named(m, key)
  {
    if models == [] then None
    else if Named(models[0], key) then Some(models[0])
    else FindModel(models[1..], key)
  }

  /** Unique keys make equal keys the same model, and every tier's list repetition-free. */
  lemma {:induction false} KeysIdentifyModels(reg: Registry, a: Candidate, b: Candidate)
    requires WellFormed(reg) && a in reg.models && b in reg.models && a.Key() == b.Key()
    ensures a == b
  {
  }

  lemma CandidatesNoDuplicates(reg: Registry, tier: Tier, c: Constraints)
    requires WellFormed(reg)
    ensures NoDuplicates(Candidates(reg, tier, c))
  {
    forall i, j | 0 <= i < j < |reg.models| ensures reg.models[i] != reg.models[j] {
      assert reg.models[i].Key() != reg.models[j].Key();
    }
    FilterNoDuplicates(reg.models, EligibleFor(reg, tier, c));
  }

  /** Who is a candidate, constraint by constraint; without a list of its own a request is bound by the registry's. */
  lemma CandidateIff(reg: Registry, tier: Tier, c: Constraints, m: Candidate)
    ensures m in Candidates(reg, tier, c) <==>
            && m in reg.models && m.tier == tier && m.enabled && m.selectable
            && (c.allowedProviders.Some? ==>
                  c.allowedProviders.value == {} || m.provider in c.allowedProviders.value)
            && (c.allowedProviders.None? ==> reg.allowProviders == {} || m.provider in reg.allowProviders)
            && (c.allowedBillingClasses == None || m.billingClass in c.allowedBillingClasses.value)
            && (c.allowedModels == None || ModelKey(m.provider, m.model) in c.allowedModels.value)
            && (c.minContextLimit == None || c.minContextLimit.value <= m.contextLimit)
  {
  }

  /** A model is found by its provider with its name or an alias, the first one listed. */
  lemma {:induction false} FoundIsTheFirst(models: seq<Candidate>, key: ModelKey, i: nat)
    requires i < |models| && FindModel(models, key) == Some(models[i])
    requires forall j :: 0 <= j < i ==> models[j] != models[i]
    ensures models[i].provider == key.provider && (models[i].model == key.model || key.model in models[i].aliases)
    ensures forall j :: 0 <= j < i ==>
              models[j].provider != key.provider || (models[j].model != key.model && key.model !in models[j].aliases)
  {
    if !Named(models[0], key) {
      assert forall j :: 0 < j < i ==> models[1..][j - 1] == models[j];
      if i > 0 { FoundIsTheFirst(models[1..], key, i - 1); }
    } else {
      assert i == 0;
    }
  }
}
