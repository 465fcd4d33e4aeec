/** Usable answers lost to a later failure (orchestrator/core.py, orchestrator/fallback_manager.py). */
module LostAnswers {
  import opened Prelude
  import opened Sequences
  import opened Routing
  import opened ModelRegistry
  import opened ModelSelector
  import opened FallbackManager
  import opened ResponseValidator
  import opened AttemptLoop
  import opened AttemptLoopProperties
  import opened AttemptLoopReach
  import opened SmartRun

  // -- which answer is returned ----------------------------------------------------------------------

  function Returned(ending: Ending): Option<Response> {
    match ending
    case Validated(r) => Some(r)
    case Stopped(r) => Some(r)
    case Exhausted(r) => Some(r)
    case _ => None
  }

  /** As the validator does: an error is judged by its cause. */
  ghost predicate JudgesErrors(s: Setting) {
    forall r: Response :: r.isError ==> s.judge(r) == ProviderError || s.judge(r) == RateLimit || s.judge(r) == Timeout
  }

  /** What the loop stamps on a response does not change the judgement. */
  ghost predicate JudgesWithoutStamps(s: Setting) {
    forall r: Response, k: nat, previous: Option<Response> :: s.judge(Stamped(r, k, previous)) == s.judge(r)
  }

  lemma ValidatorJudgesErrors(reg: Registry, sel: Selector, limits: Limits, f: PromptFeatures, c: Constraints,
                              tier: Tier, env: Environment)
    ensures JudgesErrors(SettingOf(reg, sel, limits, f, c, tier, env))
    ensures JudgesWithoutStamps(SettingOf(reg, sel, limits, f, c, tier, env))
  {
  }

  ghost predicate UsableBefore(log: seq<Entry>, i: nat) {
    exists j :: 0 <= j < i && j < |log| && !Errors(log[j])
  }

  /** After attempt `k` no attempt is left, or no time, or nobody of the same tier. */
  predicate NoWayOn(s: Setting, k: nat, e: Entry) {
    || k + 1 >= s.policy.maxAttempts
    || s.env.elapsedMs(k) >= s.policy.maxTotalLatencyMs
    || e.position + 1 >= |RankedAt(s, e.tier)|
  }

  lemma {:induction false} AttemptIsCounted(log: seq<Entry>, j: nat, i: nat)
    requires j < i <= |log| && log[j].attempt.Some?
    ensures Attempts(log[..i]) != []
  {
    assert Front(log[..i]) == log[..i - 1] && Last(log[..i]) == log[i - 1];
    if j < i - 1 { AttemptIsCounted(log, j, i - 1); }
  }

  lemma FailureEndsTheRunIff(s: Setting, log: seq<Entry>, ending: Ending, i: nat)
    requires Lawful(s, log) && LawfulEnding(s, log, ending) && JudgesErrors(s)
    requires i < |log| && log[i].attempt.Some? && Errors(log[i]) && Attempts(log[..i]) != []
    ensures i == |log| - 1 && ending == Stopped(log[i].attempt.value.response) <==>
            NoWayOn(s, |Attempts(log[..i])|, log[i])
  {
    AttemptIsLawful(s, log, i);
    if i + 1 < |log| {
      EarlierAttemptsGoOn(s, log, i);
    } else {
      AttemptIsCounted(log, i, |log|);
      assert log[..|log|] == log && Last(log) == log[i];
    }
    hide Lawful, RankedAt, Stamped, Attempts;
  }

  /** A failing attempt after a usable one, with no way on. */
  ghost predicate LateFailure(s: Setting, log: seq<Entry>, i: nat) {
    && i < |log| && log[i].attempt.Some? && Errors(log[i])
    && UsableBefore(log, i) && NoWayOn(s, |Attempts(log[..i])|, log[i])
  }

  /**
    A run that had a usable answer returns an error exactly when a later attempt failed with no attempt, no time or
    no other model of the tier left: the fallback manager then stops on the failure.
   */
  lemma UsableAnswerIsLostIff(s: Setting, log: seq<Entry>, ending: Ending)
    requires Lawful(s, log) && LawfulEnding(s, log, ending) && JudgesErrors(s)
    requires Returned(ending).Some? && UsableBefore(log, |log|)
    ensures Returned(ending).value.isError <==> exists i: nat :: LateFailure(s, log, i)
  {
    var usable :| 0 <= usable < |log| && !Errors(log[usable]);
    var last := |log| - 1;
    if Returned(ending).value.isError {
      match ending
      case Validated(r) => ValidatedIsTheLastAttempt(s, log, r);
      case Exhausted(r) => ExhaustedReturnsTheEarliestUsable(s, log, r);
      case Stopped(r) =>
        assert usable < last;
        AttemptIsCounted(log, usable, last);
        FailureEndsTheRunIff(s, log, ending, last);
        assert LateFailure(s, log, last);
    }
    if i: nat :| LateFailure(s, log, i) {
      var j :| 0 <= j < i && j < |log| && !Errors(log[j]);
      AttemptIsCounted(log, j, i);
      FailureEndsTheRunIff(s, log, ending, i);
    }
  }

  // -- which settings can lose an answer -------------------------------------------------------------

  /** The clock starts at the run's beginning and does not go back. */
  ghost predicate KeepsTime(env: Environment) {
    ClockAdvances(env) && forall n: nat :: env.elapsedMs(n) >= 0
  }

  /** A run under this environment returns an error although it had a usable answer. */
  ghost predicate Loses(s: Setting, env: Environment, log: seq<Entry>, ending: Ending) {
    var t := s.(env := env);
    && KeepsTime(env) && Lawful(t, log) && LawfulEnding(t, log, ending) && UsableBefore(log, |log|)
    && Returned(ending).Some? && Returned(ending).value.isError
  }

  ghost predicate CanLose(s: Setting) {
    exists env, log, ending :: Loses(s, env, log, ending)
  }

  /** With one attempt there is no later one to lose an answer to. */
  lemma OneAttemptLosesNothing(s: Setting, env: Environment, log: seq<Entry>, ending: Ending)
    requires s.policy.maxAttempts <= 1 && JudgesErrors(s)
    ensures !Loses(s, env, log, ending)
  {
    var t := s.(env := env);
    if Loses(s, env, log, ending) {
      UsableAnswerIsLostIff(t, log, ending);
      var i: nat :| LateFailure(t, log, i);
      var j :| 0 <= j < i && j < |log| && !Errors(log[j]);
      AttemptIsCounted(log, j, i);
      PrefixLawful(t, log, i);
    }
  }

  /** After an attempt found to be `reason`, the next candidate of the tier may be tried, in time or just late. */
  predicate MayRetry(s: Setting, t: Tier, p: nat, reason: Reason) {
    && p + 1 < |RankedAt(s, t)|
    && (reason in {ProviderError, Truncated, TooShort} ||
        (reason in {RateLimit, Timeout, Refusal} && s.policy.maxTotalLatencyMs > 0))
  }

  /** After an attempt found to be `reason`, the first candidate of the next tier up may be tried. */
  predicate MayEscalate(s: Setting, t: Tier, p: nat, reason: Reason) {
    && s.policy.allowEscalation && s.policy.maxTotalLatencyMs > 0
    && (reason in {FormatViolation, TooShort} ||
        (reason in {Refusal, Truncated} && p + 1 == |RankedAt(s, t)|))
    && NextTier(s.order, t).Ok? && NextTier(s.order, t).value.Some?
    && RankedAt(s, NextTier(s.order, t).value.value) != []
  }

  /** A place a run can come to, and a usable answer there after which it may go on. */
  ghost predicate LeavesAnAnswer(s: Setting, t: Tier, p: nat, q: Response) {
    && Reachable(s, t) && p < |RankedAt(s, t)| && !q.isError
    && (MayRetry(s, t, p, s.judge(q)) || MayEscalate(s, t, p, s.judge(q)))
  }

  /** Whoever went on did so because it might. */
  lemma WentOnMightGoOn(s: Setting, log: seq<Entry>, j: nat)
    requires Lawful(s, log) && j + 1 < |log| && log[j].attempt.Some? && s.env.elapsedMs(|Attempts(log[..j])|) >= 0
    ensures var reason := log[j].attempt.value.reason;
            MayRetry(s, log[j].tier, log[j].position, reason) || MayEscalate(s, log[j].tier, log[j].position, reason)
  {
    AttemptIsLawful(s, log, j);
    NextEntryFollows(s, log, j + 1);
    EntriesAreRanked(s, log, j + 1);
    hide Lawful, RankedAt, Attempts, Stamped, NextTier;
  }

  lemma LosingRunLeavesAnAnswer(s: Setting, env: Environment, log: seq<Entry>, ending: Ending)
    returns (t: Tier, p: nat, q: Response)
    requires WellBehaved(s) && JudgesErrors(s) && JudgesWithoutStamps(s) && Loses(s, env, log, ending)
    ensures LeavesAnAnswer(s, t, p, q)
  {
    var u := s.(env := env);
    WorldsRankAlike(s, env);
    hide Lawful, WellBehaved, Reachable, RankedAt, LawfulEnding, MayRetry, MayEscalate, NextTier;
    UsableAnswerIsLostIff(u, log, ending);
    var i: nat :| LateFailure(u, log, i);
    var j :| 0 <= j < i && j < |log| && !Errors(log[j]);
    var k := |Attempts(log[..j])|;
    EntriesAreReachable(u, log, j);
    WentOnMightGoOn(u, log, j);
    AttemptIsLawful(u, log, j);
    t, p, q := log[j].tier, log[j].position, Raw(u, k, log[j].candidate);
    assert log[j].attempt.value.reason == s.judge(q);
    MaySame(s, env, t, p, s.judge(q));
  }

  /** Going on depends on the rankings and the policy, not on the outside world. */
  lemma MaySame(s: Setting, env: Environment, t: Tier, p: nat, reason: Reason)
    ensures MayRetry(s.(env := env), t, p, reason) <==> MayRetry(s, t, p, reason)
    ensures MayEscalate(s.(env := env), t, p, reason) <==> MayEscalate(s, t, p, reason)
  {
    WorldsRankAlike(s, env);
    hide RankedAt, NextTier;
  }

  // The losing run: `n` denials, the answer `q` at the moment `first`, then failures when the time is up.

  function Failing(m: Candidate): Response {
    Response(m.Key(), true, NoCode, false, true, false, None, 0, None)
  }

  function LosingEnvironment(s: Setting, n: nat, q: Response, first: nat): Environment {
    Environment(Some((k: nat, m: Candidate) => if k < n then Denied else Granted),
                (k: nat, m: Candidate) => if k == 0 then q else Failing(m),
                (k: nat) => if k == 0 then first else Max(first, Max(0, s.policy.maxTotalLatencyMs)))
  }

  lemma LosingClock(s: Setting, n: nat, q: Response, first: nat)
    ensures var env := LosingEnvironment(s, n, q, first);
            && KeepsTime(env) && env.elapsedMs(0) == first && env.elapsedMs(1) >= s.policy.maxTotalLatencyMs
            && (forall k: nat, m: Candidate :: k < n ==> !Admits(env, k, m))
            && (forall m: Candidate :: env.respond(0, m) == q && env.respond(1, m) == Failing(m))
  {
    var clock := LosingEnvironment(s, n, q, first).elapsedMs;
    assert forall k: nat :: clock(k) == if k == 0 then first else Max(first, Max(0, s.policy.maxTotalLatencyMs));
  }

  /** Late for a recovery, otherwise at once. */
  function WhenToGoOn(s: Setting, t: Tier, p: nat, reason: Reason): nat {
    if MayRetry(s, t, p, reason) && reason in {ProviderError, Truncated, TooShort} then
      Max(0, s.policy.maxTotalLatencyMs)
    else 0
  }

  lemma FirstGoesOn(s: Setting, t: Tier, p: nat, reason: Reason)
    requires s.policy.maxAttempts >= 2 && p < |RankedAt(s, t)|
    requires MayRetry(s, t, p, reason) || MayEscalate(s, t, p, reason)
    requires s.env.elapsedMs(0) == WhenToGoOn(s, t, p, reason)
    ensures var next := AfterAttempt(s, t, |RankedAt(s, t)| - p - 1, 0, reason);
            && next.Go? && !next.decision.Stop?
            && (next.decision.RetrySameTier? ==> p + 1 < |RankedAt(s, t)|)
            && (next.decision.EscalateTier? ==>
                  NextTier(s.order, t) == Ok(Some(next.decision.next)) && RankedAt(s, next.decision.next) != [])
  {
    hide RankedAt, NextTier;
  }

  lemma SecondStops(s: Setting, tier: Tier, left: nat, reason: Reason)
    requires reason != Valid && s.env.elapsedMs(1) >= s.policy.maxTotalLatencyMs
    ensures var next := AfterAttempt(s, tier, left, 1, reason); next.Go? && next.decision.Stop?
  {
  }

  /** Where the run goes after it went on from `one`. */
  lemma NextPlace(s: Setting, one: Entry) returns (t: Tier, p: nat)
    requires one.position < |RankedAt(s, one.tier)| && one.attempt.Some? && one.attempt.value.next.Go?
    requires var d := one.attempt.value.next.decision;
             && !d.Stop? && (d.RetrySameTier? ==> one.position + 1 < |RankedAt(s, one.tier)|)
             && (d.EscalateTier? ==> NextTier(s.order, one.tier) == Ok(Some(d.next)) && RankedAt(s, d.next) != [])
    ensures p < |RankedAt(s, t)| && Succeeds(s, one, Entry(t, p, RankedAt(s, t)[p], None))
  {
    hide RankedAt, NextTier;
    match one.attempt.value.next.decision
    case RetrySameTier(_) => t, p := one.tier, one.position + 1;
    case EscalateTier(next, _) => t, p := next, 0;
  }

  /** The failure that follows the answer ends the run. */
  lemma FailureFollows(s: Setting, log: seq<Entry>, t: Tier, p: nat, q: Response, n: nat, first: nat)
    returns (two: Entry)
    requires s.env == LosingEnvironment(s, n, q, first) && s.policy.maxAttempts >= 2 && JudgesErrors(s)
    requires Lawful(s, log) && log != [] && |Attempts(log)| == 1 && n <= |log| && GoesOn(Last(log))
    requires p < |RankedAt(s, t)| && Succeeds(s, Last(log), Entry(t, p, RankedAt(s, t)[p], None))
    ensures Lawful(s, log + [two]) && two.attempt.Some? && two.attempt.value.response.isError
    ensures LawfulEnding(s, log + [two], Stopped(two.attempt.value.response))
  {
    two := InvokedNext(s, log, t, p);
    var response := two.attempt.value.response;
    LosingClock(s, n, q, first);
    assert Raw(s, 1, two.candidate) == Failing(two.candidate);
    assert response == Stamped(Failing(two.candidate), 1, LastRaw(s, log));
    assert response.isError && s.judge(response) != Valid;
    SecondStops(s, t, |RankedAt(s, t)| - p - 1, s.judge(response));
    hide RankedAt, Lawful, Attempts, AfterAttempt, Stamped, NextTier, JudgesErrors, LastRaw;
    assert LawfulEntry(s, log, two);
    AppendEntry(s, log, two);
  }

  /** The answer comes first, and the run goes on. */
  lemma AnswerComesFirst(s: Setting, before: seq<Entry>, t: Tier, p: nat, q: Response, first: nat)
    returns (one: Entry)
    requires s.env == LosingEnvironment(s, |before|, q, first) && s.policy.maxAttempts >= 2
    requires p < |RankedAt(s, t)| && StandsBefore(s, before, t, p) && JudgesWithoutStamps(s) && !q.isError
    requires MayRetry(s, t, p, s.judge(q)) || MayEscalate(s, t, p, s.judge(q))
    requires first == WhenToGoOn(s, t, p, s.judge(q))
    ensures Lawful(s, before + [one]) && |Attempts(before + [one])| == 1 && !Errors(one) && GoesOn(one)
    ensures one.position < |RankedAt(s, one.tier)| && one.attempt.Some? && one.attempt.value.next.Go?
    ensures var d := one.attempt.value.next.decision;
            && !d.Stop? && (d.RetrySameTier? ==> one.position + 1 < |RankedAt(s, one.tier)|)
            && (d.EscalateTier? ==> NextTier(s.order, one.tier) == Ok(Some(d.next)) && RankedAt(s, d.next) != [])
  {
    one := InvokedNext(s, before, t, p);
    DeniedAttempts(before);
    LosingClock(s, |before|, q, first);
    assert Raw(s, 0, one.candidate) == q;
    assert one.attempt.value.response == Stamped(q, 0, LastRaw(s, before));
    assert one.attempt.value.reason == s.judge(q);
    FirstGoesOn(s, t, p, s.judge(q));
    hide RankedAt, Lawful, Attempts, AfterAttempt, NextTier, MayRetry, MayEscalate, WhenToGoOn, LawfulAttempt;
    NextMayFollow(s, before, one);
    assert LawfulEntry(s, before, one);
    AppendEntry(s, before, one);
  }

  lemma AnswerLeftIsLost(s: Setting, t: Tier, p: nat, q: Response)
    returns (env: Environment, log: seq<Entry>, ending: Ending)
    requires WellBehaved(s) && JudgesErrors(s) && JudgesWithoutStamps(s) && s.policy.maxAttempts >= 2
    requires LeavesAnAnswer(s, t, p, q)
    ensures Loses(s, env, log, ending)
  {
    WorldsRankAlike(s, DenyingWorld());
    var first := WhenToGoOn(s, t, p, s.judge(q));
    hide RankedAt, Lawful, WellBehaved, Reachable, NextTier, StandsBefore, MayRetry, MayEscalate, LawfulEnding,
         WhenToGoOn, Succeeds, Attempts, KeepsTime;
    var before := DeniedUpTo(s.(env := DenyingWorld()), t, p);
    env := LosingEnvironment(s, |before|, q, first);
    var u := s.(env := env);
    LosingClock(s, |before|, q, first);
    WorldsRankAlike(s, env);
    MaySame(s, env, t, p, s.judge(q));
    StandsBeforeAnywhere(s, before, t, p, env);
    assert first == WhenToGoOn(u, t, p, u.judge(q)) by { WhenSame(s, env, t, p, s.judge(q)); }
    var one := AnswerComesFirst(u, before, t, p, q, first);
    assert Last(before + [one]) == one;
    var v, r := NextPlace(u, one);
    var two := FailureFollows(u, before + [one], v, r, q, |before|, first);
    log := before + [one] + [two];
    ending := Stopped(two.attempt.value.response);
    assert !Errors(log[|before|]);
  }

  lemma WhenSame(s: Setting, env: Environment, t: Tier, p: nat, reason: Reason)
    ensures WhenToGoOn(s.(env := env), t, p, reason) == WhenToGoOn(s, t, p, reason)
  {
    MaySame(s, env, t, p, reason);
    hide MayRetry, MayEscalate;
  }

  /**
    A setting can lose a usable answer exactly when the policy allows a second attempt and, somewhere a run can
    come to, a usable answer can be judged such that the run goes on to another candidate.
   */
  lemma SettingCanLoseIff(s: Setting)
    requires WellBehaved(s) && JudgesErrors(s) && JudgesWithoutStamps(s)
    ensures CanLose(s) <==> s.policy.maxAttempts >= 2 && exists t, p, q :: LeavesAnAnswer(s, t, p, q)
  {
    hide WellBehaved, JudgesErrors, JudgesWithoutStamps, Loses, LeavesAnAnswer;
    if CanLose(s) {
      var env, log, ending :| Loses(s, env, log, ending);
      if s.policy.maxAttempts <= 1 { OneAttemptLosesNothing(s, env, log, ending); }
      var t, p, q := LosingRunLeavesAnAnswer(s, env, log, ending);
      assert LeavesAnAnswer(s, t, p, q);
    }
    if t, p, q :| s.policy.maxAttempts >= 2 && LeavesAnAnswer(s, t, p, q) {
      var env, log, ending := AnswerLeftIsLost(s, t, p, q);
      assert Loses(s, env, log, ending);
    }
  }

  /** The initial tier ranks two models, or one and the next tier up somebody. */
  predicate TwoInReach(s: Setting) {
    |RankedAt(s, s.initialTier)| >= 2 ||
    (RankedAt(s, s.initialTier) != [] && NextTier(s.order, s.initialTier).Ok? &&
     NextTier(s.order, s.initialTier).value.Some? &&
     RankedAt(s, NextTier(s.order, s.initialTier).value.value) != [])
  }

  /**
    With the real validator, which finds refusals whatever the request, and any time at all: some world makes a run
    lose a usable answer exactly when two attempts are allowed and two models are in reach.
   */
  lemma RealSettingCanLoseIff(reg: Registry, sel: Selector, limits: Limits, f: PromptFeatures, c: Constraints,
                              tier: Tier, env: Environment)
    requires WellFormed(reg) && SettingOf(reg, sel, limits, f, c, tier, env).policy.maxTotalLatencyMs > 0
    ensures var s := SettingOf(reg, sel, limits, f, c, tier, env);
            CanLose(s) <==> reg.maxAttempts >= 2 && TwoInReach(s)
  {
    var s := SettingOf(reg, sel, limits, f, c, tier, env);
    SettingOfIsWellBehaved(reg, sel, limits, f, c, tier, env);
    ValidatorJudgesErrors(reg, sel, limits, f, c, tier, env);
    SettingCanLoseIff(s);
    var q := Response(ModelKey("", ""), false, NoCode, true, false, false, None, 0, None);
    assert s.judge(q) == Refusal && s.policy.allowEscalation;
    hide WellBehaved, JudgesErrors, JudgesWithoutStamps, CanLose, SettingOf;
    TwoInReachIff(s, q);
  }

  lemma TwoInReachIff(s: Setting, refused: Response)
    requires WellBehaved(s) && s.judge(refused) == Refusal && !refused.isError
    requires s.policy.maxTotalLatencyMs > 0 && s.policy.allowEscalation
    ensures TwoInReach(s) <==> exists t, p, q :: LeavesAnAnswer(s, t, p, q)
  {
    if TwoInReach(s) {
      InitialIsReachable(s);
      hide RankedAt, NextTier, Reachable;
      assert LeavesAnAnswer(s, s.initialTier, 0, refused);
    }
    if t, p, q :| LeavesAnAnswer(s, t, p, q) {
      SomebodyFollows(s, t, p);
    }
  }

  lemma SomebodyFollows(s: Setting, t: Tier, p: nat)
    requires WellBehaved(s) && Reachable(s, t) && p < |RankedAt(s, t)|
    requires p + 1 < |RankedAt(s, t)| ||
             (NextTier(s.order, t).Ok? && NextTier(s.order, t).value.Some? &&
              RankedAt(s, NextTier(s.order, t).value.value) != [])
    ensures TwoInReach(s)
  {
    if t != s.initialTier && |RankedAt(s, s.initialTier)| < 2 {
      var i := IndexOf(s.order, s.initialTier);
      hide RankedAt, ProperRankings;
      assert RankedAt(s, s.order[i]) != [] && RankedAt(s, s.order[i + 1]) != [];
    }
  }

  // A run with two models and two attempts: the first is cut short, the second fails.

  function Answer(name: string, isError: bool): Response {
    Response(ModelKey(name, name), isError, NoCode, false, true, !isError, None, 0, None)
  }

  function Judge(): Response -> Reason {
    (r: Response) => if r.isError then ProviderError else Truncated
  }

  function TwoModels(a: Candidate, b: Candidate): Setting {
    Setting([T1],
            (t: Tier) => if t == T1 then Ok([a, b]) else Err(NoCandidatesForSelection),
            Judge(),
            Policy(2, 1000, true),
            T1,
            Environment(None, (n: nat, m: Candidate) => if n == 0 then Answer("first", false)
                        else Answer("second", true), (n: nat) => 0))
  }

  function TwoAttempts(a: Candidate, b: Candidate): seq<Entry> {
    var one, two := Answer("first", false), Answer("second", true);
    [Entry(T1, 0, a, Some(Attempt(1, Stamped(one, 0, None), Truncated, Go(RetrySameTier(Because(Truncated)))))),
     Entry(T1, 1, b, Some(Attempt(2, Stamped(two, 1, Some(one)), ProviderError, Go(Stop(MaxAttempts)))))]
  }

  lemma FirstOfTwo(a: Candidate, b: Candidate)
    ensures LawfulEntry(TwoModels(a, b), [], TwoAttempts(a, b)[0])
  {
  }

  lemma SecondOfTwo(a: Candidate, b: Candidate)
    ensures LawfulEntry(TwoModels(a, b), [TwoAttempts(a, b)[0]], TwoAttempts(a, b)[1])
  {
  }

  /** The usable first answer is lost: the run stops after the second attempt and returns its error. */
  lemma UsableAnswerCanBeLost(a: Candidate, b: Candidate)
    requires a.Key() != b.Key()
    ensures var s, log := TwoModels(a, b), TwoAttempts(a, b);
            var returned := log[1].attempt.value.response;
            && WellBehaved(s) && Lawful(s, log) && LawfulEnding(s, log, Stopped(returned))
            && !Errors(log[0]) && returned.isError
  {
    var s, log := TwoModels(a, b), TwoAttempts(a, b);
    FirstOfTwo(a, b);
    SecondOfTwo(a, b);
    assert Front(log) == [log[0]] && Last(log) == log[1];
    assert Front([log[0]]) == [] && Last([log[0]]) == log[0];
    hide LawfulEntry, Stamped;
    assert Lawful(s, []);
    assert Lawful(s, [log[0]]);
  }
}
