/**
  The smart-routing attempt loop (orchestrator/core.py, _run_smart_attempt_loop).

  `Trace` records what one run did. `Lawful` says, step by step and without reference to the
  loop's variables, which traces the routing rules allow; the loop is proved to produce lawful
  traces only, for every behaviour of the authoriser, the providers and the clock, and to end.
  The properties of runs are then proved about every lawful trace.
 */
module AttemptLoop {
  import opened Prelude
  import opened Sequences
  import opened Routing
  import opened ModelRegistry
  import opened FallbackManager
  import opened ResponseValidator

  /** The outcome of asking for credit; an authoriser that raises counts as a denial. */
  datatype Authorisation = Granted | Denied | AuthoriserRaised

  /**
    The outside world: the answer to the n-th credit question, the n-th invocation's response and
    the clock after it. Each may depend on its position, so every behaviour over time is covered.
   */
  datatype Environment = Environment(
    authoriser: Option<(nat, Candidate) -> Authorisation>,
    respond: (nat, Candidate) -> Response,
    elapsedMs: nat -> int)

  /**
    What the loop is given: the tier order, the ranking of a tier's candidates (registry lookup and
    selection), the validator, the fallback policy, the tier to start on and the outside world.
   */
  datatype Setting = Setting(
    order: seq<Tier>,
    ranking: Tier -> Result<seq<Candidate>, RoutingError>,
    judge: Response -> Reason,
    policy: Policy,
    initialTier: Tier,
    env: Environment)

  /** Selection never returns nothing, and a model has one place in all the rankings. */
  ghost predicate ProperRankings(s: Setting) {
    && (forall t :: s.ranking(t).Ok? ==> s.ranking(t).value != [])
    && (forall t, u, i, j ::
          (0 <= i < |RankedAt(s, t)| && 0 <= j < |RankedAt(s, u)| &&
           RankedAt(s, t)[i].Key() == RankedAt(s, u)[j].Key()) ==> t == u && i == j)
  }

  /** Proper rankings, and an order that from the initial tier on does not go back. */
  ghost predicate WellBehaved(s: Setting) {
    ProperRankings(s) && (s.initialTier in s.order ==> RisesFrom(s.order, s.initialTier))
  }

  function Admits(env: Environment, n: nat, m: Candidate): bool {
    env.authoriser.None? || env.authoriser.value(n, m) == Granted
  }

  function RankedAt(s: Setting, tier: Tier): seq<Candidate> {
    if s.ranking(tier).Ok? then s.ranking(tier).value else []
  }

  /** What follows an attempt: its response is accepted, the run fails, or the fallback manager decides. */
  datatype Next = Accept | Fail(error: RoutingError) | Go(decision: Decision)

  datatype Attempt = Attempt(number: nat, response: Response, reason: Reason, next: Next)

  /** One candidate taken from the front of its tier's ranking; `attempt` is `None` if it was denied credit. */
  datatype Entry = Entry(tier: Tier, position: nat, candidate: Candidate, attempt: Option<Attempt>)

  function Front<T>(s: seq<T>): seq<T>
    requires s != []
  {
    s[..|s| - 1]
  }

  function Last<T>(s: seq<T>): T
    requires s != []
  {
    s[|s| - 1]
  }

  /** The entries that reached a provider, in order. */
  function Attempts(log: seq<Entry>): seq<Entry> {
    if log == [] then []
    else Attempts(Front(log)) + (if Last(log).attempt.Some? then [Last(log)] else [])
  }

  /** What provider number `k` (from 0) answered, before the loop stamps it. */
  function Raw(s: Setting, k: nat, m: Candidate): Response { s.env.respond(k, m) }

  /** The latest provider's answer, unstamped. */
  function LastRaw(s: Setting, log: seq<Entry>): (r: Option<Response>)
    ensures r.Some? <==> Attempts(log) != []
  {
    var done := Attempts(log);
    if done == [] then None else Some(Raw(s, |done| - 1, Last(done).candidate))
  }

  /** A response carries its number and, after the first, the model that answered just before. */
  function Stamped(raw: Response, index: nat, previous: Option<Response>): Response {
    var numbered := raw.(attempt := index + 1);
    if previous.Some? then numbered.(fallbackFrom := Some(previous.value.source)) else numbered
  }

  function AfterAttempt(s: Setting, tier: Tier, left: nat, k: nat, reason: Reason): Next {
    if reason == Valid then Accept
    else
      match Decide(reason, k, s.env.elapsedMs(k), left, s.policy, NextTier(s.order, tier))
      case Err(e) => Fail(e)
      case Ok(d) => Go(d)
  }

  predicate GoesOn(e: Entry) {
    e.attempt.None? || (e.attempt.value.next.Go? && !e.attempt.value.next.decision.Stop?)
  }

  predicate Escalates(e: Entry) {
    e.attempt.Some? && e.attempt.value.next.Go? && e.attempt.value.next.decision.EscalateTier?
  }

  /** After `e` its tier is left behind: an escalation, or nothing more in the tier's ranking. */
  predicate LeavesTier(s: Setting, e: Entry) {
    Escalates(e) || e.position + 1 == |RankedAt(s, e.tier)|
  }

  /** Rankings are consumed front to back; when a tier is left, the run goes to the next one up. */
  predicate Succeeds(s: Setting, p: Entry, e: Entry) {
    if LeavesTier(s, p) then e.position == 0 && NextTier(s.order, p.tier) == Ok(Some(e.tier))
    else e.position == p.position + 1 && e.tier == p.tier
  }

  predicate LawfulAttempt(s: Setting, before: seq<Entry>, e: Entry)
    requires e.attempt.Some?
    requires e.position < |RankedAt(s, e.tier)|
  {
    var a := e.attempt.value;
    var k := |Attempts(before)|;
    && a.number == k + 1
    && a.response == Stamped(Raw(s, k, e.candidate), k, LastRaw(s, before))
    && a.reason == s.judge(a.response)
    && a.next == AfterAttempt(s, e.tier, |RankedAt(s, e.tier)| - e.position - 1, k, a.reason)
  }

  /** What may be recorded next. */
  predicate LawfulEntry(s: Setting, before: seq<Entry>, e: Entry) {
    && |Attempts(before)| < s.policy.maxAttempts
    && e.position < |RankedAt(s, e.tier)| && RankedAt(s, e.tier)[e.position] == e.candidate
    && (if before == [] then e.tier == s.initialTier && e.position == 0
        else GoesOn(Last(before)) && Succeeds(s, Last(before), e))
    && (e.attempt.Some? <==> Admits(s.env, |before|, e.candidate))
    && (e.attempt.Some? ==> LawfulAttempt(s, before, e))
  }

  predicate Lawful(s: Setting, log: seq<Entry>) {
    log != [] ==> Lawful(s, Front(log)) && LawfulEntry(s, Front(log), Last(log))
  }

  /** How a run ends. An exhausted run that never had a usable answer returns the last raw response. */
  datatype Ending =
    | Validated(response: Response)
    | Stopped(response: Response)
    | Exhausted(response: Response)
    | NothingInvoked
    | Raised(error: RoutingError)

  function EarliestNonError(log: seq<Entry>): (r: Option<Response>)
    ensures r.Some? ==> Attempts(log) != [] && !r.value.isError
  {
    if log == [] then None
    else
      var earlier := EarliestNonError(Front(log));
      if earlier.Some? then earlier
      else if Last(log).attempt.Some? && !Last(log).attempt.value.response.isError then
        Some(Last(log).attempt.value.response)
      else None
  }

  /** Nothing is left to consult: the ranking is used up and no tier lies above. */
  predicate OutOfCandidates(s: Setting, log: seq<Entry>) {
    && log != [] && GoesOn(Last(log)) && !Escalates(Last(log))
    && LeavesTier(s, Last(log)) && NextTier(s.order, Last(log).tier) == Ok(None)
  }

  predicate LawfulEnding(s: Setting, log: seq<Entry>, ending: Ending) {
    match ending
    case Validated(r) =>
      log != [] && Last(log).attempt.Some? && Last(log).attempt.value.next == Accept &&
        r == Last(log).attempt.value.response
    case Stopped(r) =>
      log != [] && Last(log).attempt.Some? && Last(log).attempt.value.next.Go? &&
      Last(log).attempt.value.next.decision.Stop? && r == Last(log).attempt.value.response
    case Exhausted(r) =>
      && OutOfCandidates(s, log)
      && Some(r) == (if EarliestNonError(log).Some? then EarliestNonError(log) else LastRaw(s, log))
    case NothingInvoked =>
      Attempts(log) == [] && (OutOfCandidates(s, log) || s.policy.maxAttempts <= 0)
    case Raised(error) =>
      && log != []
      && ((Last(log).attempt.Some? && Last(log).attempt.value.next == Fail(error)) ||
          (GoesOn(Last(log)) && LeavesTier(s, Last(log)) && CannotLoadNext(s, Last(log).tier, error)))
  }

  /** The step up raises: the tier is not in the configured order, or the next tier has no candidates. */
  predicate CannotLoadNext(s: Setting, tier: Tier, error: RoutingError) {
    match NextTier(s.order, tier)
    case Err(e) => e == error
    case Ok(None) => false
    case Ok(Some(next)) => s.ranking(next) == Err(error)
  }

  /** A tier the climb from the initial one can pass; from an unknown initial tier there is no climb. */
  predicate OnTheWay(s: Setting, t: Tier) {
    if s.initialTier in s.order then t in s.order && IndexOf(s.order, s.initialTier) <= IndexOf(s.order, t)
    else t == s.initialTier
  }

  /** Up from a tier on the way is on the way, one position further. */
  lemma NextIsOnTheWay(s: Setting, t: Tier)
    requires WellBehaved(s) && OnTheWay(s, t) && NextTier(s.order, t).Ok? && NextTier(s.order, t).value.Some?
    ensures var next := NextTier(s.order, t).value.value;
            OnTheWay(s, next) && next in s.order && IndexOf(s.order, next) == IndexOf(s.order, t) + 1
  {
    NextTierClimbs(s.order, t);
  }

  function TiersAbove(order: seq<Tier>, t: Tier): nat {
    if t in order then |order| - IndexOf(order, t) - 1 else 0
  }

  /** The loop's running values; `current` is what is left of the tier's ranking. */
  datatype Progress = Progress(
    tier: Tier,
    current: seq<Candidate>,
    attemptIndex: nat,
    bestNonError: Option<Response>,
    lastResponse: Option<Response>)

  /** The record so far is lawful, and what the loop carries agrees with it. */
  ghost predicate Agrees(s: Setting, log: seq<Entry>, p: Progress) {
    && Lawful(s, log)
    && p.attemptIndex == |Attempts(log)|
    && p.bestNonError == EarliestNonError(log)
    && p.lastResponse == LastRaw(s, log)
    && (p.attemptIndex > 0 ==> p.attemptIndex < s.policy.maxAttempts)
    && (log != [] ==> GoesOn(Last(log)))
  }

  /** The run has just moved to `p.tier` and nothing of its ranking has been taken. */
  ghost predicate Entering(s: Setting, log: seq<Entry>, p: Progress) {
    && Agrees(s, log, p)
    && (if log == [] then p.tier == s.initialTier
        else LeavesTier(s, Last(log)) && NextTier(s.order, Last(log).tier) == Ok(Some(p.tier)))
  }

  /** The run is inside `p.tier`: `p.current` is the rest of its ranking. */
  ghost predicate Inside(s: Setting, log: seq<Entry>, p: Progress) {
    var used := |RankedAt(s, p.tier)| - |p.current|;
    && used >= 0 && RankedAt(s, p.tier) != []
    && p.current == RankedAt(s, p.tier)[used..]
    && (if used == 0 then Entering(s, log, p)
        else
          && Agrees(s, log, p)
          && log != [] && !Escalates(Last(log))
          && Last(log).tier == p.tier && Last(log).position + 1 == used)
  }

  lemma {:induction false} AppendEntry(s: Setting, log: seq<Entry>, e: Entry)
    requires Lawful(s, log) && LawfulEntry(s, log, e)
    ensures Lawful(s, log + [e])
    ensures Last(log + [e]) == e
    ensures Attempts(log + [e]) == Attempts(log) + (if e.attempt.Some? then [e] else [])
    ensures EarliestNonError(log + [e]) ==
            if EarliestNonError(log).Some? then EarliestNonError(log)
            else if e.attempt.Some? && !e.attempt.value.response.isError then Some(e.attempt.value.response)
            else None
    ensures LastRaw(s, log + [e]) ==
            if e.attempt.Some? then Some(Raw(s, |Attempts(log)|, e.candidate)) else LastRaw(s, log)
  {
  }

  /** The first entry of a tier, or the next one of the same tier: either way a lawful one. */
  lemma FrontIsLawful(s: Setting, log: seq<Entry>, p: Progress, e: Entry)
    requires Inside(s, log, p) && p.current != []
    requires p.attemptIndex < s.policy.maxAttempts
    requires e.tier == p.tier && e.position == |RankedAt(s, p.tier)| - |p.current| && e.candidate == p.current[0]
    requires e.attempt.Some? <==> Admits(s.env, |log|, e.candidate)
    requires e.attempt.Some? ==> LawfulAttempt(s, log, e)
    ensures LawfulEntry(s, log, e)
  {
  }

  /** How much of the current ranking has been taken. */
  function PositionOf(s: Setting, p: Progress): (n: nat)
    requires |p.current| <= |RankedAt(s, p.tier)|
  {
    |RankedAt(s, p.tier)| - |p.current|
  }

  /** Call the provider, stamp and validate its response and, unless it is valid, ask the fallback manager. */
  method InvokeAndJudge(s: Setting, ghost log: seq<Entry>, p: Progress) returns (e: Entry)
    requires Inside(s, log, p) && p.current != []
    ensures e.tier == p.tier && e.candidate == p.current[0] && e.position == PositionOf(s, p)
    ensures e.attempt.Some? && LawfulAttempt(s, log, e)
    ensures GoesOn(e) ==> p.attemptIndex + 1 < s.policy.maxAttempts
    ensures Escalates(e) ==> NextTier(s.order, p.tier) == Ok(Some(e.attempt.value.next.decision.next))
  {
    hide RankedAt, NextTier, Lawful, Attempts, EarliestNonError, LastRaw, LeavesTier, FallbackManager.Decide, Stamped;
    var candidate := p.current[0];
    var raw := s.env.respond(p.attemptIndex, candidate);
    var response := Stamped(raw, p.attemptIndex, p.lastResponse);
    var reason := s.judge(response);
    var next := AfterAttempt(s, p.tier, |p.current| - 1, p.attemptIndex, reason);
    e := Entry(p.tier, PositionOf(s, p), candidate, Some(Attempt(p.attemptIndex + 1, response, reason, next)));
  }

  /** The loop's values after the front candidate led to `e`. */
  function Advance(s: Setting, p: Progress, e: Entry): Progress
    requires p.current != []
  {
    var q := p.(current := p.current[1..]);
    if e.attempt.None? then q
    else
      var response := e.attempt.value.response;
      q.(attemptIndex := p.attemptIndex + 1,
         lastResponse := Some(Raw(s, p.attemptIndex, e.candidate)),
         bestNonError := if p.bestNonError.None? && !response.isError then Some(response) else p.bestNonError)
  }

  lemma AdvanceAgrees(s: Setting, log: seq<Entry>, p: Progress, e: Entry)
    requires Inside(s, log, p) && p.current != []
    requires LawfulEntry(s, log, e) && GoesOn(e)
    requires e.attempt.Some? ==> p.attemptIndex + 1 < s.policy.maxAttempts
    ensures Agrees(s, log + [e], Advance(s, p, e))
  {
    hide LawfulEntry, Lawful, Attempts, EarliestNonError, LastRaw, RankedAt, Raw, LeavesTier, NextTier;
    AppendEntry(s, log, e);
  }

  /** Inside the tier again, or, after an escalation, about to enter the next one. */
  lemma AdvanceMovesOn(s: Setting, log: seq<Entry>, p: Progress, e: Entry)
    requires Inside(s, log, p) && p.current != []
    requires Agrees(s, log + [e], Advance(s, p, e)) && GoesOn(e)
    requires e.tier == p.tier && e.position == |RankedAt(s, p.tier)| - |p.current|
    ensures !Escalates(e) ==> Inside(s, log + [e], Advance(s, p, e))
    ensures Escalates(e) && NextTier(s.order, p.tier) == Ok(Some(e.attempt.value.next.decision.next)) ==>
              Entering(s, log + [e], Advance(s, p, e).(tier := e.attempt.value.next.decision.next))
  {
  }

  /** Take the candidate at the front: ask for its credit, and invoke it unless that is refused. */
  method ConsultNext(s: Setting, log: seq<Entry>, p: Progress) returns (e: Entry, q: Progress)
    requires Inside(s, log, p) && p.current != [] && p.attemptIndex < s.policy.maxAttempts
    ensures Lawful(s, log + [e]) && Last(log + [e]) == e
    ensures GoesOn(e) && !Escalates(e) ==> Inside(s, log + [e], q)
    ensures GoesOn(e) && Escalates(e) ==> Entering(s, log + [e], q.(tier := e.attempt.value.next.decision.next))
    ensures q.attemptIndex == p.attemptIndex + (if e.attempt.Some? then 1 else 0)
    ensures q.tier == p.tier && q.current == p.current[1..]
    ensures Escalates(e) ==> NextTier(s.order, p.tier) == Ok(Some(e.attempt.value.next.decision.next))
  {
    var candidate := p.current[0];
    assert |p.current| <= |RankedAt(s, p.tier)| && RankedAt(s, p.tier)[PositionOf(s, p)] == candidate;
    hide RankedAt, NextTier, Lawful, LawfulAttempt, LawfulEntry, Attempts, EarliestNonError, LastRaw, Inside,
         Agrees, Entering;
    if s.env.authoriser.Some? && s.env.authoriser.value(|log|, candidate) != Granted {
      e := Entry(p.tier, PositionOf(s, p), candidate, None);
    } else {
      e := InvokeAndJudge(s, log, p);
    }
    q := Advance(s, p, e);
    FrontIsLawful(s, log, p, e);
    AppendEntry(s, log, e);
    if GoesOn(e) {
      AdvanceAgrees(s, log, p, e);
      AdvanceMovesOn(s, log, p, e);
    }
  }

  /** Load the ranking of the tier being entered; an empty tier makes selection raise. */
  method LoadTier(s: Setting, ghost log: seq<Entry>, p: Progress) returns (r: Result<Progress, RoutingError>)
    requires WellBehaved(s)
    requires Entering(s, log, p) && log != []
    ensures r.Ok? ==> Inside(s, log, r.value) && r.value.tier == p.tier && r.value.attemptIndex == p.attemptIndex
    ensures r.Err? ==> LawfulEnding(s, log, Raised(r.error))
  {
    hide Lawful, NextTier, LeavesTier, Attempts, EarliestNonError, LastRaw, GoesOn;
    var selection := s.ranking(p.tier);
    match selection
    case Err(e) => r := Err(e);
    case Ok(ranked) => r := Ok(p.(current := ranked));
  }

  /** The ranking is used up: move one tier up. `None` says there is no tier above. */
  method Climb(s: Setting, ghost log: seq<Entry>, p: Progress) returns (r: Result<Option<Progress>, RoutingError>)
    requires WellBehaved(s) && OnTheWay(s, p.tier)
    requires Inside(s, log, p) && p.current == []
    ensures r.Err? ==> LawfulEnding(s, log, Raised(r.error))
    ensures r == Ok(None) ==> OutOfCandidates(s, log)
    ensures r.Ok? && r.value.Some? ==>
              && Inside(s, log, r.value.value) && r.value.value.attemptIndex == p.attemptIndex
              && OnTheWay(s, r.value.value.tier)
              && TiersAbove(s.order, r.value.value.tier) < TiersAbove(s.order, p.tier)
  {
    hide RankedAt, Lawful, Attempts, EarliestNonError, LastRaw, NextTier;
    assert log != [] && LeavesTier(s, Last(log)) && Last(log).tier == p.tier;
    var next := NextTier(s.order, p.tier);
    if next.Err? {
      r := Err(next.error);
    } else if next.value.None? {
      r := Ok(None);
    } else {
      NextIsOnTheWay(s, p.tier);
      var loaded := LoadTier(s, log, p.(tier := next.value.value));
      match loaded
      case Err(e) => r := Err(e);
      case Ok(q) => r := Ok(Some(q));
    }
  }

  /** The ending an attempt forces: accepted, stopped, or the fallback manager raised. */
  function EndingAfter(a: Attempt): Ending
    requires a.next.Go? ==> a.next.decision.Stop?
  {
    match a.next
    case Accept => Validated(a.response)
    case Fail(error) => Raised(error)
    case Go(_) => Stopped(a.response)
  }

  lemma EndsAfter(s: Setting, log: seq<Entry>)
    requires log != [] && !GoesOn(Last(log))
    ensures LawfulEnding(s, log, EndingAfter(Last(log).attempt.value))
  {
  }

  function WithoutAValidResponse(p: Progress): Ending {
    if p.bestNonError.Some? then Exhausted(p.bestNonError.value)
    else if p.lastResponse.Some? then Exhausted(p.lastResponse.value)
    else NothingInvoked
  }

  lemma EndsWithoutAValidResponse(s: Setting, log: seq<Entry>, p: Progress)
    requires Inside(s, log, p)
    requires OutOfCandidates(s, log) || s.policy.maxAttempts <= p.attemptIndex
    ensures LawfulEnding(s, log, WithoutAValidResponse(p))
  {
  }

  /**
    The loop itself. It ends wherever the order rises from the initial tier: each round uses up a
    candidate, moves to a higher tier or counts an attempt.
   */
  method RunAttemptLoop(s: Setting, ordered: seq<Candidate>) returns (ending: Ending, log: seq<Entry>, finalTier: Tier)
    requires WellBehaved(s)
    requires s.ranking(s.initialTier) == Ok(ordered)
    ensures Lawful(s, log)
    ensures LawfulEnding(s, log, ending)
    ensures !ending.Raised? ==> finalTier == if log == [] then s.initialTier else Last(log).tier
  {
    var p := Progress(s.initialTier, ordered, 0, None, None);
    log := [];
    assert Inside(s, log, p);
    hide RankedAt, Attempts, EarliestNonError, LastRaw, NextTier, OutOfCandidates, WithoutAValidResponse,
         TiersAbove, LawfulEnding, EndingAfter;
    while p.attemptIndex < s.policy.maxAttempts
      invariant Lawful(s, log) && Inside(s, log, p) && OnTheWay(s, p.tier)
      invariant log == [] ==> p.tier == s.initialTier
      invariant log != [] ==> p.attemptIndex < s.policy.maxAttempts
      decreases s.policy.maxAttempts - p.attemptIndex, TiersAbove(s.order, p.tier), |p.current|
    {
      if p.current == [] {
        var climbed := Climb(s, log, p);
        if climbed.Err? { return Raised(climbed.error), log, p.tier; }
        if climbed.value.None? {
          EndsWithoutAValidResponse(s, log, p);
          return WithoutAValidResponse(p), log, p.tier;
        }
        p := climbed.value.value;
        continue;
      }
      var e;
      e, p := ConsultNext(s, log, p);
      log := log + [e];
      if !GoesOn(e) {
        EndsAfter(s, log);
        return EndingAfter(e.attempt.value), log, p.tier;
      }
      if Escalates(e) {
        NextIsOnTheWay(s, p.tier);
        var loaded := LoadTier(s, log, p.(tier := e.attempt.value.next.decision.next));
        if loaded.Err? { return Raised(loaded.error), log, e.attempt.value.next.decision.next; }
        p := loaded.value;
      }
    }
    EndsWithoutAValidResponse(s, log, p);
    return WithoutAValidResponse(p), log, p.tier;
  }
}
