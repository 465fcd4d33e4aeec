/** What holds of every lawful run of the attempt loop, whatever the outside world does. */
module AttemptLoopProperties {
  import opened Prelude
  import opened Sequences
  import opened Routing
  import opened ModelRegistry
  import opened ModelSelector
  import opened FallbackManager
  import opened ResponseValidator
  import opened AttemptLoop

  lemma {:induction false} PrefixLawful(s: Setting, log: seq<Entry>, n: nat)
    requires Lawful(s, log) && n <= |log|
    ensures Lawful(s, log[..n])
    ensures n < |log| ==> LawfulEntry(s, log[..n], log[n])
  {
    hide LawfulEntry;
    if n == |log| {
      assert log[..n] == log;
    } else if n == |log| - 1 {
      assert log[..n] == Front(log) && log[n] == Last(log);
    } else {
      PrefixLawful(s, Front(log), n);
      assert Front(log)[..n] == log[..n] && Front(log)[n] == log[n];
    }
  }

  /** At most `max_attempts` providers are invoked, and the recorded attempts are numbered 1, 2, 3, ... */
  lemma {:induction false} AttemptsAreNumbered(s: Setting, log: seq<Entry>)
    requires Lawful(s, log)
    ensures |Attempts(log)| <= Max(0, s.policy.maxAttempts)
    ensures forall k :: 0 <= k < |Attempts(log)| ==>
              Attempts(log)[k].attempt.Some? &&
              Attempts(log)[k].attempt.value.number == Attempts(log)[k].attempt.value.response.attempt == k + 1
  {
    if log != [] {
      LastIsNumbered(s, log);
      assert Lawful(s, Front(log));
      assert Attempts(log) == Attempts(Front(log)) + (if Last(log).attempt.Some? then [Last(log)] else []);
      hide Lawful, Attempts;
      AttemptsAreNumbered(s, Front(log));
    }
  }

  lemma {:induction false} LastIsNumbered(s: Setting, log: seq<Entry>)
    requires Lawful(s, log) && log != []
    ensures |Attempts(Front(log))| < s.policy.maxAttempts
    ensures var a := Last(log).attempt;
            a.Some? ==> a.value.number == a.value.response.attempt == |Attempts(Front(log))| + 1
  {
  }

  /** `a` was ranked before `b`: earlier in one tier's ranking, or in a strictly lower tier. */
  predicate Before(order: seq<Tier>, a: Entry, b: Entry) {
    (a.tier == b.tier && a.position < b.position) ||
    (a.tier in order && b.tier in order && IndexOf(order, a.tier) < IndexOf(order, b.tier))
  }

  lemma NextEntryIsLater(s: Setting, p: Entry, e: Entry)
    requires WellBehaved(s) && OnTheWay(s, p.tier) && Succeeds(s, p, e)
    ensures Before(s.order, p, e) && OnTheWay(s, e.tier)
  {
    if LeavesTier(s, p) { NextIsOnTheWay(s, p.tier); }
  }

  lemma {:induction false} NextEntryFollows(s: Setting, log: seq<Entry>, j: nat)
    requires Lawful(s, log) && 0 < j < |log|
    ensures GoesOn(log[j - 1]) && Succeeds(s, log[j - 1], log[j])
  {
    PrefixLawful(s, log, j);
    assert Last(log[..j]) == log[j - 1];
    hide Lawful, Succeeds, RankedAt;
  }

  lemma {:induction false} EntriesOnTheWay(s: Setting, log: seq<Entry>, i: nat)
    requires WellBehaved(s) && Lawful(s, log) && i < |log|
    ensures OnTheWay(s, log[i].tier)
  {
    hide Lawful, Succeeds, WellBehaved;
    if i == 0 {
      FirstEntryStarts(s, log);
    } else {
      EntriesOnTheWay(s, log, i - 1);
      NextEntryFollows(s, log, i);
      NextEntryIsLater(s, log[i - 1], log[i]);
    }
  }

  lemma {:induction false} FirstEntryStarts(s: Setting, log: seq<Entry>)
    requires Lawful(s, log) && log != []
    ensures log[0].tier == s.initialTier && log[0].position == 0
  {
    PrefixLawful(s, log, 0);
  }

  lemma {:induction false} EntriesClimb(s: Setting, log: seq<Entry>, i: nat, j: nat)
    requires WellBehaved(s) && Lawful(s, log) && i < j < |log|
    ensures Before(s.order, log[i], log[j])
    decreases j
  {
    hide Lawful, Succeeds, IndexOf, WellBehaved, OnTheWay;
    NextEntryFollows(s, log, j);
    EntriesOnTheWay(s, log, j - 1);
    NextEntryIsLater(s, log[j - 1], log[j]);
    if i < j - 1 {
      EntriesClimb(s, log, i, j - 1);
    }
  }

  /** Every candidate consulted stands in the recorded tier's ranking, and is invoked exactly if admitted. */
  lemma {:induction false} EntriesAreRanked(s: Setting, log: seq<Entry>, i: nat)
    requires Lawful(s, log) && i < |log|
    ensures log[i].position < |RankedAt(s, log[i].tier)|
    ensures RankedAt(s, log[i].tier)[log[i].position] == log[i].candidate
    ensures log[i].attempt.Some? <==> Admits(s.env, i, log[i].candidate)
  {
    PrefixLawful(s, log, i);
  }

  /** No model is consulted, let alone invoked, twice in one run. */
  lemma {:induction false} NoModelTwice(s: Setting, log: seq<Entry>, i: nat, j: nat)
    requires WellBehaved(s) && Lawful(s, log) && i < j < |log|
    ensures log[i].candidate.Key() != log[j].candidate.Key()
  {
    EntriesClimb(s, log, i, j);
    EntriesAreRanked(s, log, i);
    EntriesAreRanked(s, log, j);
    hide Lawful;
  }

  /** Only the last attempt can be valid; every earlier one sent the run on. */
  lemma {:induction false} EarlierAttemptsGoOn(s: Setting, log: seq<Entry>, i: nat)
    requires Lawful(s, log) && i + 1 < |log|
    ensures GoesOn(log[i])
    ensures log[i].attempt.Some? ==> log[i].attempt.value.reason != Valid
  {
    NextEntryFollows(s, log, i + 1);
    PrefixLawful(s, log, i);
  }

  ghost predicate Errors(e: Entry) {
    e.attempt.Some? ==> e.attempt.value.response.isError
  }

  lemma {:induction false} EarliestNonErrorIsEarliest(log: seq<Entry>)
    ensures EarliestNonError(log).None? <==> forall i :: 0 <= i < |log| ==> Errors(log[i])
    ensures EarliestNonError(log).Some? ==>
              exists i :: 0 <= i < |log| && !Errors(log[i]) &&
                EarliestNonError(log).value == log[i].attempt.value.response &&
                forall j :: 0 <= j < i ==> Errors(log[j])
  {
    if log != [] {
      EarliestNonErrorIsEarliest(Front(log));
      var n := |log| - 1;
      assert forall i :: 0 <= i < n ==> Front(log)[i] == log[i];
      if EarliestNonError(Front(log)).None? {
        assert forall j :: 0 <= j < n ==> Errors(log[j]);
        assert EarliestNonError(log).Some? ==> !Errors(log[n]);
      } else {
        var i :| 0 <= i < n && !Errors(Front(log)[i]) &&
          EarliestNonError(Front(log)).value == Front(log)[i].attempt.value.response &&
          forall j :: 0 <= j < i ==> Errors(Front(log)[j]);
        assert !Errors(log[i]) && forall j :: 0 <= j < i ==> Errors(Front(log)[j]) && Front(log)[j] == log[j];
      }
    }
  }

  /** A response that is returned as valid is the last attempt's, and the first the validator accepted. */
  lemma {:induction false} ValidatedIsTheLastAttempt(s: Setting, log: seq<Entry>, r: Response)
    requires Lawful(s, log) && LawfulEnding(s, log, Validated(r))
    ensures log[|log| - 1].attempt.Some? && log[|log| - 1].attempt.value.response == r
    ensures s.judge(r) == Valid
    ensures forall i :: 0 <= i < |log| - 1 ==> log[i].attempt.Some? ==> log[i].attempt.value.reason != Valid
  {
    PrefixLawful(s, log, |log| - 1);
    forall i | 0 <= i < |log| - 1 ensures log[i].attempt.Some? ==> log[i].attempt.value.reason != Valid {
      EarlierAttemptsGoOn(s, log, i);
    }
  }

  /**
    When the candidates run out after at least one attempt, the earliest usable response is returned;
    an error comes back only if every attempt was one, and then it is the latest.
   */
  lemma {:induction false} ExhaustedReturnsTheEarliestUsable(s: Setting, log: seq<Entry>, r: Response)
    requires Lawful(s, log) && LawfulEnding(s, log, Exhausted(r))
    ensures (exists i :: 0 <= i < |log| && !Errors(log[i])) ==>
              !r.isError && exists i :: 0 <= i < |log| && !Errors(log[i]) && r == log[i].attempt.value.response &&
                              forall j :: 0 <= j < i ==> Errors(log[j])
    ensures (forall i :: 0 <= i < |log| ==> Errors(log[i])) ==> Some(r) == LastRaw(s, log)
    ensures forall i :: 0 <= i < |log| ==> log[i].attempt.Some? ==> log[i].attempt.value.reason != Valid
  {
    EarliestNonErrorIsEarliest(log);
    hide Lawful, EarliestNonError, LastRaw, NextTier, RankedAt;
    forall i | 0 <= i < |log| ensures log[i].attempt.Some? ==> log[i].attempt.value.reason != Valid {
      if log[i].attempt.Some? { OnlyAcceptedIsValid(s, log, i); }
      if i + 1 < |log| { EarlierAttemptsGoOn(s, log, i); }
    }
  }

  lemma {:induction false} OnlyAcceptedIsValid(s: Setting, log: seq<Entry>, i: nat)
    requires Lawful(s, log) && i < |log| && log[i].attempt.Some?
    ensures log[i].attempt.value.reason == Valid <==> log[i].attempt.value.next == Accept
  {
    AttemptIsLawful(s, log, i);
    hide Lawful, RankedAt;
  }

  /** The clock never runs backwards. */
  ghost predicate ClockAdvances(env: Environment) {
    forall i: nat, j: nat :: i <= j ==> env.elapsedMs(i) <= env.elapsedMs(j)
  }

  /**
    Past the latency budget only one recovery is left: if the clock reads the budget or more after
    attempt `k` and yet another provider is invoked, `k` was the first attempt and that provider is the last.
   */
  lemma {:induction false} LatencyBudgetStopsTheRun(s: Setting, log: seq<Entry>, i: nat)
    requires Lawful(s, log) && ClockAdvances(s.env)
    requires i < |log| && log[i].attempt.Some?
    requires s.env.elapsedMs(|Attempts(log[..i])|) >= s.policy.maxTotalLatencyMs
    requires |Attempts(log[..i])| + 1 < |Attempts(log)|
    ensures Attempts(log[..i]) == [] && |Attempts(log)| == 2
  {
    var k := |Attempts(log[..i])|;
    AttemptGoesOnAtBudget(s, log, i);
    assert k == 0;
    if |Attempts(log)| > 2 {
      var j := SecondAttempt(s, log, i);
      AttemptGoesOnAtBudget(s, log, j);
      assert false;
    }
  }

  /** An attempt after the first that finds the budget spent ends the run. */
  lemma {:induction false} AttemptGoesOnAtBudget(s: Setting, log: seq<Entry>, i: nat)
    requires Lawful(s, log)
    requires i < |log| && log[i].attempt.Some?
    requires s.env.elapsedMs(|Attempts(log[..i])|) >= s.policy.maxTotalLatencyMs
    requires |Attempts(log[..i])| + 1 < |Attempts(log)|
    ensures Attempts(log[..i]) == []
  {
    hide Lawful, LawfulEntry, AfterAttempt, RankedAt, Succeeds, Stamped;
    assert Front(log[..i + 1]) == log[..i];
    assert log[..|log|] == log;
    NextEntryFollows(s, log, i + 1);
    AttemptIsLawful(s, log, i);
    var e := log[i];
    if |Attempts(log[..i])| > 0 {
      LateAttemptsStop(s, e.tier, |RankedAt(s, e.tier)| - e.position - 1, |Attempts(log[..i])|, e.attempt.value.reason);
    }
  }

  lemma {:induction false} AttemptIsLawful(s: Setting, log: seq<Entry>, i: nat)
    requires Lawful(s, log) && i < |log| && log[i].attempt.Some?
    ensures log[i].position < |RankedAt(s, log[i].tier)| && LawfulAttempt(s, log[..i], log[i])
  {
    PrefixLawful(s, log, i);
    hide Lawful, LawfulAttempt, RankedAt;
  }

  lemma LateAttemptsStop(s: Setting, tier: Tier, left: nat, k: nat, reason: Reason)
    requires k > 0 && s.env.elapsedMs(k) >= s.policy.maxTotalLatencyMs
    ensures var next := AfterAttempt(s, tier, left, k, reason); next.Go? ==> next.decision.Stop?
  {
  }

  lemma {:induction false} SecondAttempt(s: Setting, log: seq<Entry>, i: nat) returns (j: nat)
    requires i < |log| && log[i].attempt.Some? && Attempts(log[..i]) == [] && |Attempts(log)| > 1
    ensures i < j < |log| && log[j].attempt.Some? && |Attempts(log[..j])| == 1
  {
    j := i + 1;
    assert Front(log[..i + 1]) == log[..i];
    assert log[..|log|] == log;
    while log[j].attempt.None?
      invariant i < j < |log|
      invariant |Attempts(log[..j])| == 1
      decreases |log| - j
    {
      assert Front(log[..j + 1]) == log[..j];
      j := j + 1;
    }
  }

  // -- where a run goes next -------------------------------------------------------------------------

  /** `e` stands right behind `p` in the ranking of the same tier. */
  predicate RightBehind(p: Entry, e: Entry) {
    e.tier == p.tier && e.position == p.position + 1
  }

  /** `e` is the first of the tier above that of `p`. */
  predicate FirstAbove(s: Setting, p: Entry, e: Entry) {
    e.position == 0 && NextTier(s.order, p.tier) == Ok(Some(e.tier))
  }

  predicate LastOfItsTier(s: Setting, p: Entry) {
    p.position + 1 == |RankedAt(s, p.tier)|
  }

  /** Behind a denied candidate comes the next one of its tier, and the first of the tier above when there is none. */
  lemma AfterADenial(s: Setting, log: seq<Entry>, i: nat)
    requires Lawful(s, log) && i + 1 < |log| && log[i].attempt.None?
    ensures if LastOfItsTier(s, log[i]) then FirstAbove(s, log[i], log[i + 1]) else RightBehind(log[i], log[i + 1])
  {
    NextEntryFollows(s, log, i + 1);
    hide Lawful, NextTier, RankedAt;
  }

  /** What an attempt was found to be decides where a run goes that has the time. */
  lemma AfterAnAttempt(s: Setting, log: seq<Entry>, i: nat)
    requires Lawful(s, log) && i + 1 < |log| && log[i].attempt.Some?
    requires s.env.elapsedMs(|Attempts(log[..i])|) < s.policy.maxTotalLatencyMs
    ensures var reason := log[i].attempt.value.reason;
            && (reason == TooShort || reason == FormatViolation ==> FirstAbove(s, log[i], log[i + 1]))
            && (reason == Refusal || reason == Truncated ==>
                  if LastOfItsTier(s, log[i]) then FirstAbove(s, log[i], log[i + 1])
                  else RightBehind(log[i], log[i + 1]))
            && (reason == ProviderError || reason == RateLimit || reason == Timeout ==> RightBehind(log[i], log[i + 1]))
            && reason != Valid
  {
    AttemptIsLawful(s, log, i);
    NextEntryFollows(s, log, i + 1);
    EarlierAttemptsGoOn(s, log, i);
    hide Lawful, NextTier, RankedAt, Attempts, Stamped;
  }

  /** Out of time, a run goes on only after its first attempt, and only to the next candidate of the tier. */
  lemma AfterALateAttempt(s: Setting, log: seq<Entry>, i: nat)
    requires Lawful(s, log) && i + 1 < |log| && log[i].attempt.Some?
    requires s.env.elapsedMs(|Attempts(log[..i])|) >= s.policy.maxTotalLatencyMs
    ensures Attempts(log[..i]) == [] && RightBehind(log[i], log[i + 1])
    ensures log[i].attempt.value.reason in {ProviderError, TooShort, Truncated}
  {
    AttemptIsLawful(s, log, i);
    NextEntryFollows(s, log, i + 1);
    EarlierAttemptsGoOn(s, log, i);
    hide Lawful, NextTier, RankedAt, Attempts, Stamped;
  }

  /** Every answer after the first names the model that answered just before it. */
  lemma {:induction false} AnswersNameTheirPredecessor(s: Setting, log: seq<Entry>, k: nat)
    requires Lawful(s, log) && k < |Attempts(log)|
    ensures Attempts(log)[k].attempt.Some?
    ensures var raw, r := Raw(s, k, Attempts(log)[k].candidate), Attempts(log)[k].attempt.value.response;
            && r == raw.(attempt := k + 1, fallbackFrom := r.fallbackFrom)
            && r.fallbackFrom == if k == 0 then raw.fallbackFrom
                                 else Some(Raw(s, k - 1, Attempts(log)[k - 1].candidate).source)
  {
    var front, last := Front(log), Last(log);
    assert Lawful(s, front) && LawfulEntry(s, front, last);
    hide Lawful, RankedAt, AfterAttempt;
    if k < |Attempts(front)| {
      AnswersNameTheirPredecessor(s, front, k);
    } else {
      assert LawfulAttempt(s, front, last) && k == |Attempts(front)|;
    }
  }

  // -- how a run ends --------------------------------------------------------------------------------

  /** Nobody is left: the last entry was the last of its tier, and no tier is above. */
  predicate NobodyLeft(s: Setting, log: seq<Entry>) {
    && log != [] && LastOfItsTier(s, Last(log))
    && Last(log).tier in s.order && IndexOf(s.order, Last(log).tier) == |s.order| - 1
  }

  /** A run that gives up has nobody left; without any attempt it was denied by all, or was allowed none. */
  lemma GivesUpOnlyAtTheEnd(s: Setting, log: seq<Entry>, ending: Ending)
    requires Lawful(s, log) && LawfulEnding(s, log, ending)
    ensures ending.Exhausted? ==> NobodyLeft(s, log) && Attempts(log) != []
    ensures ending.NothingInvoked? ==> Attempts(log) == [] && (NobodyLeft(s, log) || s.policy.maxAttempts <= 0)
  {
    hide Lawful, RankedAt, IndexOf;
  }

  /** A run that is stopped or accepted ends with the attempt that was judged so. */
  lemma EndsWithItsLastAttempt(s: Setting, log: seq<Entry>, ending: Ending)
    requires Lawful(s, log) && LawfulEnding(s, log, ending) && (ending.Validated? || ending.Stopped?)
    ensures log != [] && Last(log).attempt.Some? && ending.response == Last(log).attempt.value.response
    ensures ending.Validated? <==> Last(log).attempt.value.reason == Valid
  {
    PrefixLawful(s, log, |log| - 1);
    OnlyAcceptedIsValid(s, log, |log| - 1);
    hide Lawful, RankedAt;
  }

  /** A run that raises: the order does not know its tier, or the tier above has nobody. */
  lemma RaisesForItsTiers(s: Setting, log: seq<Entry>, error: RoutingError)
    requires Lawful(s, log) && LawfulEnding(s, log, Raised(error))
    ensures log != [] && var t := Last(log).tier;
            if t !in s.order then error == InvalidTier
            else
              IndexOf(s.order, t) + 1 < |s.order| && s.ranking(s.order[IndexOf(s.order, t) + 1]) == Err(error)
  {
    var last := |log| - 1;
    var e := Last(log);
    hide Lawful, RankedAt, IndexOf, Attempts, Stamped, Decide;
    if e.attempt.Some? && e.attempt.value.next == Fail(error) {
      AttemptIsLawful(s, log, last);
    }
  }
}
