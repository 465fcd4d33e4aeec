/** The vocabulary of smart routing (orchestrator/routing_types.py). */
module Routing {
  import opened Prelude

  datatype Tier = T0 | T1 | T2 | T3

  function Rank(t: Tier): nat {
    match t case T0 => 0 case T1 => 1 case T2 => 2 case T3 => 3
  }

  datatype Intent = Rewrite | Summarize | Bullets | Brainstorm | Code | Analysis | General

  datatype PromptFeatures = PromptFeatures(
    tokenEstimate: nat,
    contextTokenEstimate: nat,
    contextMessages: nat,
    hasCode: bool,
    hasMath: bool,
    hasAnalysis: bool,
    hasFactual: bool,
    strictFormat: bool,
    hasLogsStacktrace: bool,
    isFollowUp: bool,
    needsLatestInfo: bool,
    needsAccuracy: bool,
    intent: Intent,
    hasStrictConstraints: bool)

  datatype ModelKey = ModelKey(provider: string, model: string)

  /** Absent constraints are the record whose optional fields are all `None`. */
  datatype Constraints = Constraints(
    maxCostUsd: Option<real>,
    maxTotalLatencyMs: Option<int>,
    preferredProvider: Option<string>,
    allowedProviders: Option<set<string>>,
    allowedBillingClasses: Option<set<string>>,
    allowedModels: Option<seq<ModelKey>>,
    minContextLimit: Option<int>,
    jsonOnly: bool,
    strictFormat: bool)

  datatype Candidate = Candidate(
    provider: string,
    model: string,
    aliases: set<string>,
    tier: Tier,
    inputCostPer1m: real,
    outputCostPer1m: real,
    contextLimit: int,
    tags: set<string>,
    billingClass: string,
    enabled: bool,
    selectable: bool)
  {
    function Key(): ModelKey { ModelKey(provider, model) }
  }

  /** Ways routing raises: an unknown tier, or a selection with nothing to choose from. */
  datatype RoutingError = InvalidTier | NoCandidatesForSelection
}
