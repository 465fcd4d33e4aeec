/** Exactly which tier orders let the attempt loop end whatever the outside world does (orchestrator/core.py). */
module AttemptLoopEnding {
  import opened Prelude
  import opened Sequences
  import opened Routing
  import opened ModelRegistry
  import opened AttemptLoop
  import opened AttemptLoopProperties
  import opened AttemptLoopReach
  import opened TargetPlan

  /** The tiers the climb from the initial one passes; there are four, so three steps show them all. */
  predicate Passes(s: Setting, t: Tier)
    requires s.initialTier in s.order
  {
    exists n :: 0 <= n < 4 && ClimbedTo(s.order, s.initialTier, n) == Some(t)
  }

  /** However far the climb goes, it comes to a tier that has somebody to consult. */
  ghost predicate ClimbGoesOn(s: Setting)
    requires s.initialTier in s.order
  {
    forall n: nat :: RankedAfter(s, n) != []
  }

  /** The ranking of the tier that lies `n` steps up. */
  function RankedAfter(s: Setting, n: nat): seq<Candidate>
    requires s.initialTier in s.order
  {
    var t := ClimbedTo(s.order, s.initialTier, n);
    if t.Some? then RankedAt(s, t.value) else []
  }

  lemma OneStepUp(order: seq<Tier>, t: Tier, n: nat)
    requires t in order
    ensures var below := ClimbedTo(order, t, n);
            ClimbedTo(order, t, n + 1) == if below.None? then None else NextTier(order, below.value).value
  {
  }

  /** Where the climb has come to a tier twice, it goes round. */
  lemma {:induction false} ClimbRepeats(order: seq<Tier>, t: Tier, i: nat, j: nat, d: nat)
    requires t in order && ClimbedTo(order, t, i) == ClimbedTo(order, t, j)
    ensures ClimbedTo(order, t, i + d) == ClimbedTo(order, t, j + d)
  {
    hide ClimbedTo, NextTier;
    if d > 0 {
      ClimbRepeats(order, t, i, j, d - 1);
      OneStepUp(order, t, i + d - 1);
      OneStepUp(order, t, j + d - 1);
    }
  }

  lemma {:induction false} EarlierIsSome(order: seq<Tier>, t: Tier, n: nat, k: nat)
    requires t in order && ClimbedTo(order, t, n).Some? && k <= n
    ensures ClimbedTo(order, t, k).Some?
  {
    if k < n { EarlierIsSome(order, t, n - 1, k); }
  }

  lemma TwoOfFiveAreEqual(tiers: seq<Tier>)
    requires |tiers| == 5
    ensures exists i, j :: 0 <= i < j < 5 && tiers[i] == tiers[j]
  {
    var a, b, c, d, e := tiers[0], tiers[1], tiers[2], tiers[3], tiers[4];
    assert a == b || a == c || a == d || a == e || b == c || b == d || b == e || c == d || c == e || d == e;
  }

  lemma ClimbOfFourRepeats(order: seq<Tier>, t: Tier, n: nat) returns (i: nat, j: nat)
    requires t in order && n >= 4 && ClimbedTo(order, t, n).Some?
    ensures i < j <= 4 && ClimbedTo(order, t, i) == ClimbedTo(order, t, j)
  {
    hide ClimbedTo;
    forall k: nat | k <= n ensures ClimbedTo(order, t, k).Some? {
      EarlierIsSome(order, t, n, k);
    }
    var tiers := seq(5, k requires 0 <= k < 5 => ClimbedTo(order, t, k).value);
    TwoOfFiveAreEqual(tiers);
    i, j :| 0 <= i < j < 5 && tiers[i] == tiers[j];
  }

  lemma {:induction false} PassedEarly(s: Setting, t: Tier, n: nat)
    requires s.initialTier in s.order && ClimbedTo(s.order, s.initialTier, n) == Some(t)
    ensures Passes(s, t)
  {
    hide ClimbedTo;
    if n >= 4 {
      var i, j := ClimbOfFourRepeats(s.order, s.initialTier, n);
      ClimbRepeats(s.order, s.initialTier, i, j, n - j);
      PassedEarly(s, t, i + (n - j));
    }
  }

  /** The next candidate of a run in which nobody is admitted. */
  function NextDenied(s: Setting, log: seq<Entry>): Option<Entry> {
    if log == [] then
      if RankedAt(s, s.initialTier) == [] then None
      else Some(Entry(s.initialTier, 0, RankedAt(s, s.initialTier)[0], None))
    else
      var p := Last(log);
      if LeavesTier(s, p) then
        match NextTier(s.order, p.tier)
        case Ok(Some(t)) => if RankedAt(s, t) == [] then None else Some(Entry(t, 0, RankedAt(s, t)[0], None))
        case _ => None
      else if p.position + 1 < |RankedAt(s, p.tier)| then
        Some(Entry(p.tier, p.position + 1, RankedAt(s, p.tier)[p.position + 1], None))
      else None
  }

  /** Everybody so far was denied, and the last tier is one the climb passes after `steps` steps. */
  ghost predicate Denied(s: Setting, log: seq<Entry>, steps: nat)
    requires s.initialTier in s.order
  {
    && Lawful(s, log) && (forall i :: 0 <= i < |log| ==> log[i].attempt.None?)
    && (log != [] ==> ClimbedTo(s.order, s.initialTier, steps) == Some(Last(log).tier))
    && (log != [] ==> Last(log).position < |RankedAt(s, Last(log).tier)|)
  }

  lemma NextDeniedIsLawful(s: Setting, log: seq<Entry>, steps: nat)
    requires s.initialTier in s.order && ClimbGoesOn(s) && DeniesEverybody(s.env) && s.policy.maxAttempts > 0
    requires Denied(s, log, steps)
    ensures NextDenied(s, log).Some? && LawfulEntry(s, log, NextDenied(s, log).value)
    ensures var e := NextDenied(s, log).value;
            && e.attempt.None? && e.position < |RankedAt(s, e.tier)|
            && (log == [] ==> e.tier == s.initialTier)
            && (log != [] && !LeavesTier(s, Last(log)) ==> e.tier == Last(log).tier)
            && (log != [] && LeavesTier(s, Last(log)) ==> ClimbedTo(s.order, s.initialTier, steps + 1) == Some(e.tier))
  {
    hide RankedAt, Lawful, Attempts;
    DeniedAttempts(log);
    assert RankedAfter(s, 0) != [] && RankedAfter(s, steps + 1) != [];
  }

  /** Where the climb goes on for ever, a run in which everybody is denied can be of any length. */
  lemma {:induction false} DeniedRunOfAnyLength(s: Setting, n: nat) returns (log: seq<Entry>, steps: nat)
    requires s.initialTier in s.order && ClimbGoesOn(s) && DeniesEverybody(s.env) && s.policy.maxAttempts > 0
    ensures |log| == n && Denied(s, log, steps)
  {
    if n == 0 {
      log, steps := [], 0;
    } else {
      var before;
      before, steps := DeniedRunOfAnyLength(s, n - 1);
      NextDeniedIsLawful(s, before, steps);
      hide RankedAt, NextTier, ClimbGoesOn, NextDenied, LawfulEntry, LeavesTier;
      var e := NextDenied(s, before).value;
      AppendEntry(s, before, e);
      log := before + [e];
      steps := if n == 1 then 0 else if LeavesTier(s, Last(before)) then steps + 1 else steps;
    }
  }

  // -- a bound on every run whose climb ends ---------------------------------------------------------

  function KeysOf(log: seq<Entry>): seq<ModelKey> {
    seq(|log|, i requires 0 <= i < |log| => log[i].candidate.Key())
  }

  lemma {:induction false} DistinctFitInto<T(!new)>(a: seq<T>, b: seq<T>)
    requires NoDuplicates(a) && forall x :: x in a ==> x in b
    ensures |a| <= |b|
    decreases |a|
  {
    if a != [] {
      assert a[0] in b;
      var k :| 0 <= k < |b| && b[k] == a[0];
      var rest := b[..k] + b[k + 1..];
      forall x | x in a[1..] ensures x in rest {
        assert x in a;
        var i :| 0 <= i < |b| && b[i] == x;
        assert x != a[0];
        assert if i < k then rest[i] == x else rest[i - 1] == x;
      }
      DistinctFitInto(a[1..], rest);
    }
  }

  /** No run consults more candidates than the plan lists. */
  lemma RunFitsThePlan(s: Setting, log: seq<Entry>)
    requires WellBehaved(s) && s.initialTier in s.order && Lawful(s, log)
    ensures |log| <= |Distinct(Keys(Planned(s)))|
  {
    var keys := KeysOf(log);
    forall i, j | 0 <= i < j < |keys| ensures keys[i] != keys[j] {
      NoModelTwice(s, log, i, j);
    }
    forall x | x in keys ensures x in Distinct(Keys(Planned(s))) {
      var i :| 0 <= i < |log| && keys[i] == x;
      PlanCoversEveryRun(s, log, i);
    }
    DistinctFitInto(keys, Distinct(Keys(Planned(s))));
  }

  /** No record of a run is longer than n. */
  ghost predicate BoundedBy(s: Setting, n: nat) {
    forall log :: Lawful(s, log) ==> |log| <= n
  }

  /** How many candidates stand in the first `n` tiers of the climb. */
  function Below(s: Setting, n: nat): nat
    requires s.initialTier in s.order
  {
    if n == 0 then 0 else Below(s, n - 1) + |RankedAfter(s, n - 1)|
  }

  lemma {:induction false} BelowGrows(s: Setting, m: nat, n: nat)
    requires s.initialTier in s.order && m <= n
    ensures Below(s, m) <= Below(s, n)
  {
    if m < n { BelowGrows(s, m, n - 1); }
  }

  /** Every tier of the climb so far has candidates. */
  ghost predicate RankedThrough(s: Setting, steps: nat)
    requires s.initialTier in s.order
  {
    forall k :: 0 <= k <= steps ==> RankedAfter(s, k) != []
  }

  lemma StepUp(s: Setting, steps: nat, t: Tier, next: Tier)
    requires s.initialTier in s.order && ClimbedTo(s.order, s.initialTier, steps) == Some(t)
    requires NextTier(s.order, t) == Ok(Some(next)) && RankedAt(s, next) != [] && RankedThrough(s, steps)
    ensures ClimbedTo(s.order, s.initialTier, steps + 1) == Some(next) && RankedThrough(s, steps + 1)
    ensures RankedAfter(s, steps + 1) == RankedAt(s, next)
    ensures Below(s, steps + 1) == Below(s, steps) + |RankedAfter(s, steps)|
  {
  }

  /** Every entry takes one more candidate of the climb. */
  lemma {:induction false} TakenFromTheClimb(s: Setting, log: seq<Entry>) returns (steps: nat)
    requires s.initialTier in s.order && Lawful(s, log) && log != []
    ensures ClimbedTo(s.order, s.initialTier, steps) == Some(Last(log).tier) && RankedThrough(s, steps)
    ensures |log| <= Below(s, steps) + Last(log).position + 1 <= Below(s, steps) + |RankedAfter(s, steps)|
  {
    var e := Last(log);
    assert Lawful(s, Front(log)) && LawfulEntry(s, Front(log), e);
    hide Lawful, Attempts, LawfulAttempt, RankedAt, NextTier;
    if Front(log) == [] {
      steps := 0;
    } else {
      var p := Last(Front(log));
      steps := TakenFromTheClimb(s, Front(log));
      assert Succeeds(s, p, e) && RankedAfter(s, steps) == RankedAt(s, p.tier);
      hide RankedThrough, ClimbedTo;
      if LeavesTier(s, p) {
        StepUp(s, steps, p.tier, e.tier);
        steps := steps + 1;
      }
    }
  }

  lemma ClimbThatEndsBounds(s: Setting, n: nat)
    requires s.initialTier in s.order && RankedAfter(s, n) == []
    ensures BoundedBy(s, Below(s, n))
  {
    forall log | Lawful(s, log) && log != [] ensures |log| <= Below(s, n) {
      var steps := TakenFromTheClimb(s, log);
      assert steps < n;
      BelowGrows(s, steps + 1, n);
    }
  }

  /**
    When nobody is admitted, the run ends exactly if the order, from the initial tier on, never goes back to an
    earlier tier, or one of the tiers the climb passes has no candidates.
   */
  lemma LoopEndsIff(s: Setting)
    requires s.initialTier in s.order && DeniesEverybody(s.env) && s.policy.maxAttempts > 0
    ensures (exists n: nat :: BoundedBy(s, n)) <==>
            RisesFrom(s.order, s.initialTier) || exists t :: Passes(s, t) && RankedAt(s, t) == []
  {
    ClimbEndsIff(s.order, s.initialTier);
    hide RankedAt, RisesFrom, BoundedBy, NextTier;
    if ClimbGoesOn(s) {
      forall n: nat ensures !BoundedBy(s, n) { UnboundedRun(s, n); }
      forall t | Passes(s, t) ensures RankedAt(s, t) != [] {
        var n :| 0 <= n < 4 && ClimbedTo(s.order, s.initialTier, n) == Some(t);
        assert RankedAfter(s, n) != [];
      }
      forall n: nat ensures ClimbedTo(s.order, s.initialTier, n).Some? {
        assert RankedAfter(s, n) != [];
      }
    } else {
      var n: nat :| RankedAfter(s, n) == [];
      ClimbThatEndsBounds(s, n);
      assert BoundedBy(s, Below(s, n));
      if ClimbedTo(s.order, s.initialTier, n).Some? {
        var t := ClimbedTo(s.order, s.initialTier, n).value;
        PassedEarly(s, t, n);
        assert Passes(s, t) && RankedAt(s, t) == [];
      } else {
        assert ClimbedTo(s.order, s.initialTier, n).None?;
      }
    }
  }

  lemma UnboundedRun(s: Setting, n: nat)
    requires s.initialTier in s.order && ClimbGoesOn(s) && DeniesEverybody(s.env) && s.policy.maxAttempts > 0
    ensures !BoundedBy(s, n)
  {
    var log, _ := DeniedRunOfAnyLength(s, n + 1);
    assert Lawful(s, log);
  }
}
