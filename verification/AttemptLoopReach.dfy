/** Which candidates a run of the attempt loop can come to at all (orchestrator/core.py). */
module AttemptLoopReach {
  import opened Prelude
  import opened Sequences
  import opened Routing
  import opened ModelRegistry
  import opened FallbackManager
  import opened ResponseValidator
  import opened AttemptLoop
  import opened AttemptLoopProperties

  /** From the initial tier up, and no further than below the first tier without candidates. */
  predicate Reachable(s: Setting, t: Tier) {
    if s.initialTier in s.order then
      && t in s.order && IndexOf(s.order, s.initialTier) <= IndexOf(s.order, t)
      && forall j :: IndexOf(s.order, s.initialTier) <= j <= IndexOf(s.order, t) ==> RankedAt(s, s.order[j]) != []
    else t == s.initialTier && RankedAt(s, t) != []
  }

  lemma NextIsReachable(s: Setting, t: Tier, next: Tier)
    requires WellBehaved(s) && Reachable(s, t)
    requires NextTier(s.order, t) == Ok(Some(next)) && RankedAt(s, next) != []
    ensures Reachable(s, next)
  {
    hide RankedAt, ProperRankings;
    NextIsOnTheWay(s, t);
    assert s.order[IndexOf(s.order, next)] == next;
  }

  lemma InitialIsReachable(s: Setting)
    requires RankedAt(s, s.initialTier) != []
    ensures Reachable(s, s.initialTier)
  {
    hide RankedAt;
    if s.initialTier in s.order {
      assert s.order[IndexOf(s.order, s.initialTier)] == s.initialTier;
    }
  }

  /** No run leaves the reachable tiers. */
  lemma {:induction false} EntriesAreReachable(s: Setting, log: seq<Entry>, i: nat)
    requires WellBehaved(s) && Lawful(s, log) && i < |log|
    ensures Reachable(s, log[i].tier)
  {
    hide Lawful, WellBehaved, Reachable, NextTier, RankedAt;
    EntriesAreRanked(s, log, i);
    if i == 0 {
      FirstEntryStarts(s, log);
      InitialIsReachable(s);
    } else {
      EntriesAreReachable(s, log, i - 1);
      NextEntryFollows(s, log, i);
      if LeavesTier(s, log[i - 1]) { NextIsReachable(s, log[i - 1].tier, log[i].tier); }
    }
  }

  // -- a run of denials that comes to any place in the rankings --------------------------------------

  ghost predicate DeniesEverybody(env: Environment) {
    forall n: nat, m: Candidate :: !Admits(env, n, m)
  }

  /** Nobody has been admitted, and the next candidate stands at `p` in the ranking of `t`. */
  predicate StandsBefore(s: Setting, log: seq<Entry>, t: Tier, p: nat)
    requires p < |RankedAt(s, t)|
  {
    && Lawful(s, log) && (forall i :: 0 <= i < |log| ==> log[i].attempt.None?)
    && (if log == [] then t == s.initialTier && p == 0
        else Succeeds(s, Last(log), Entry(t, p, RankedAt(s, t)[p], None)))
  }

  lemma {:induction false} DeniedAttempts(log: seq<Entry>)
    requires forall i :: 0 <= i < |log| ==> log[i].attempt.None?
    ensures Attempts(log) == []
  {
    if log != [] { DeniedAttempts(Front(log)); }
  }

  /** The candidate there may be consulted next; to be invoked it must be admitted. */
  lemma NextMayFollow(s: Setting, log: seq<Entry>, e: Entry)
    requires s.policy.maxAttempts > 0 && e.position < |RankedAt(s, e.tier)|
    requires StandsBefore(s, log, e.tier, e.position) && e.candidate == RankedAt(s, e.tier)[e.position]
    requires e.attempt.Some? <==> Admits(s.env, |log|, e.candidate)
    requires e.attempt.Some? ==> LawfulAttempt(s, log, e)
    ensures Lawful(s, log + [e]) && Last(log + [e]) == e
  {
    DeniedAttempts(log);
    hide RankedAt, Lawful, LawfulAttempt, Attempts;
    AppendEntry(s, log, e);
  }

  lemma BelowAReachableTier(s: Setting, t: Tier) returns (below: Tier)
    requires WellBehaved(s) && Reachable(s, t) && t != s.initialTier
    ensures s.initialTier in s.order && Reachable(s, below) && RankedAt(s, below) != []
    ensures IndexOf(s.order, below) + 1 == IndexOf(s.order, t) && NextTier(s.order, below) == Ok(Some(t))
  {
    var i := IndexOf(s.order, t) - 1;
    below := s.order[i];
    hide RankedAt, ProperRankings;
    assert i >= IndexOf(s.order, s.initialTier);
    assert s.order[i] !in s.order[..i] && forall j :: 0 <= j < i ==> s.order[j] in s.order[..i];
  }

  /** One more denial: the same tier's next candidate comes up, or the first of the next tier. */
  lemma DeniedOnce(s: Setting, before: seq<Entry>, u: Tier, q: nat, t: Tier, p: nat) returns (log: seq<Entry>)
    requires DeniesEverybody(s.env) && s.policy.maxAttempts > 0
    requires q < |RankedAt(s, u)| && StandsBefore(s, before, u, q) && p < |RankedAt(s, t)|
    requires if p > 0 then t == u && p == q + 1
             else q + 1 == |RankedAt(s, u)| && NextTier(s.order, u) == Ok(Some(t))
    ensures StandsBefore(s, log, t, p)
  {
    var e := Entry(u, q, RankedAt(s, u)[q], None);
    log := before + [e];
    assert p > 0 ==> q + 1 < |RankedAt(s, u)|;
    hide RankedAt, Lawful, NextTier;
    NextMayFollow(s, before, e);
  }

  /** Denied one after the other, the candidates before any reachable place are used up. */
  lemma {:induction false} DeniedUpTo(s: Setting, t: Tier, p: nat) returns (log: seq<Entry>)
    requires WellBehaved(s) && DeniesEverybody(s.env) && s.policy.maxAttempts > 0
    requires Reachable(s, t) && p < |RankedAt(s, t)|
    ensures StandsBefore(s, log, t, p)
    decreases if t in s.order then IndexOf(s.order, t) else 0, p
  {
    if p == 0 && t == s.initialTier {
      log := [];
    } else {
      var u, q := t, p - 1;
      if p == 0 {
        u := BelowAReachableTier(s, t);
        q := |RankedAt(s, u)| - 1;
      }
      hide RankedAt, Lawful, WellBehaved, Reachable, NextTier, IndexOf, DeniesEverybody, StandsBefore;
      var before := DeniedUpTo(s, u, q);
      log := DeniedOnce(s, before, u, q, t, p);
    }
  }

  /** A run of denials is lawful in any world that denies as many. */
  lemma {:induction false} DeniedAnywhere(s: Setting, log: seq<Entry>, env: Environment)
    requires Lawful(s, log) && forall i :: 0 <= i < |log| ==> log[i].attempt.None?
    requires forall n: nat, m: Candidate :: n < |log| ==> !Admits(env, n, m)
    ensures Lawful(s.(env := env), log)
  {
    if log != [] {
      DeniedAnywhere(s, Front(log), env);
      DeniedAttempts(Front(log));
      var u := s.(env := env);
      assert RankedAt(u, Last(log).tier) == RankedAt(s, Last(log).tier);
      assert Front(log) != [] ==>
        RankedAt(u, Last(Front(log)).tier) == RankedAt(s, Last(Front(log)).tier);
      hide Lawful, RankedAt, Attempts;
      assert LawfulEntry(u, Front(log), Last(log));
    }
  }

  function DenyingWorld(): Environment {
    AdmitsOnly(None)
  }

  /** Admits one candidate, the one consulted after `n` others, if any. */
  function AdmitsOnly(n: Option<nat>): Environment {
    Environment(Some((k: nat, m: Candidate) => if Some(k) == n then Granted else Denied),
                (k: nat, m: Candidate) => Response(m.Key(), true, NoCode, false, true, false, None, 0, None),
                (k: nat) => 0)
  }

  /** Neither well-behavedness nor what is reachable depends on the outside world. */
  lemma WorldsRankAlike(s: Setting, env: Environment)
    ensures var u := s.(env := env);
            && (forall t :: RankedAt(u, t) == RankedAt(s, t)) && (WellBehaved(u) <==> WellBehaved(s))
            && (forall t :: Reachable(u, t) <==> Reachable(s, t))
  {
    var u := s.(env := env);
    assert forall t :: RankedAt(u, t) == RankedAt(s, t);
  }

  function InvokedNext(s: Setting, log: seq<Entry>, t: Tier, p: nat): (e: Entry)
    requires p < |RankedAt(s, t)|
    ensures e.tier == t && e.position == p && e.candidate == RankedAt(s, t)[p]
    ensures e.attempt.Some? && LawfulAttempt(s, log, e)
  {
    var m, k := RankedAt(s, t)[p], |Attempts(log)|;
    var response := Stamped(Raw(s, k, m), k, LastRaw(s, log));
    var reason := s.judge(response);
    Entry(t, p, m, Some(Attempt(k + 1, response, reason, AfterAttempt(s, t, |RankedAt(s, t)| - p - 1, k, reason))))
  }

  /** Without an authoriser the first candidate is invoked. */
  lemma FirstIsInvoked(s: Setting) returns (log: seq<Entry>)
    requires s.policy.maxAttempts > 0 && RankedAt(s, s.initialTier) != [] && s.env.authoriser.None?
    ensures Lawful(s, log) && |log| == 1
    ensures log[0].attempt.Some? && log[0].candidate == RankedAt(s, s.initialTier)[0]
  {
    assert StandsBefore(s, [], s.initialTier, 0);
    hide RankedAt, Lawful, StandsBefore, LawfulAttempt;
    var e := InvokedNext(s, [], s.initialTier, 0);
    NextMayFollow(s, [], e);
    log := [] + [e];
  }

  lemma StandsBeforeAnywhere(s: Setting, log: seq<Entry>, t: Tier, p: nat, env: Environment)
    requires p < |RankedAt(s, t)| && StandsBefore(s.(env := DenyingWorld()), log, t, p)
    requires forall n: nat, m: Candidate :: n < |log| ==> !Admits(env, n, m)
    ensures StandsBefore(s.(env := env), log, t, p)
  {
    var denying, u := s.(env := DenyingWorld()), s.(env := env);
    assert u == denying.(env := env);
    DeniedAnywhere(denying, log, env);
    WorldsRankAlike(denying, env);
    hide Lawful, RankedAt, NextTier;
  }

  /** Whoever stands at a reachable place is invoked in some world. */
  lemma SomeRunInvokes(s: Setting, t: Tier, p: nat) returns (env: Environment, log: seq<Entry>)
    requires WellBehaved(s) && s.policy.maxAttempts > 0 && Reachable(s, t) && p < |RankedAt(s, t)|
    ensures Lawful(s.(env := env), log) && log != [] && Last(log).attempt.Some?
    ensures Last(log).tier == t && Last(log).candidate == RankedAt(s, t)[p]
  {
    WorldsRankAlike(s, DenyingWorld());
    hide RankedAt, Lawful, WellBehaved, Reachable, NextTier, StandsBefore, LawfulAttempt;
    var before := DeniedUpTo(s.(env := DenyingWorld()), t, p);
    env := AdmitsOnly(Some(|before|));
    WorldsRankAlike(s, env);
    StandsBeforeAnywhere(s, before, t, p, env);
    var e := InvokedNext(s.(env := env), before, t, p);
    NextMayFollow(s.(env := env), before, e);
    log := before + [e];
  }

  ghost predicate Consults(s: Setting, env: Environment, log: seq<Entry>, i: nat, t: Tier, m: Candidate) {
    Lawful(s.(env := env), log) && i < |log| && log[i].tier == t && log[i].candidate == m
  }

  ghost predicate Invokes(s: Setting, env: Environment, log: seq<Entry>, i: nat, t: Tier, m: Candidate) {
    Consults(s, env, log, i, t, m) && log[i].attempt.Some?
  }

  /**
    Some run in some world consults, and some run invokes, exactly the candidates ranked in the reachable tiers;
    with no attempt allowed there is no such run.
   */
  lemma InvokableIff(s: Setting, t: Tier, m: Candidate)
    requires WellBehaved(s)
    ensures (exists env, log, i :: Consults(s, env, log, i, t, m)) <==>
            s.policy.maxAttempts > 0 && Reachable(s, t) && m in RankedAt(s, t)
    ensures (exists env, log, i :: Invokes(s, env, log, i, t, m)) <==>
            s.policy.maxAttempts > 0 && Reachable(s, t) && m in RankedAt(s, t)
  {
    forall env, log, i | Consults(s, env, log, i, t, m)
      ensures s.policy.maxAttempts > 0 && Reachable(s, t) && m in RankedAt(s, t)
    {
      ConsultedIsReachable(s, env, log, i, t, m);
    }
    if s.policy.maxAttempts > 0 && Reachable(s, t) && m in RankedAt(s, t) {
      var p :| 0 <= p < |RankedAt(s, t)| && RankedAt(s, t)[p] == m;
      var env, log := SomeRunInvokes(s, t, p);
      assert Invokes(s, env, log, |log| - 1, t, m);
    }
    assert forall env, log, i :: Invokes(s, env, log, i, t, m) ==> Consults(s, env, log, i, t, m);
  }

  lemma ConsultedIsReachable(s: Setting, env: Environment, log: seq<Entry>, i: nat, t: Tier, m: Candidate)
    requires WellBehaved(s) && Consults(s, env, log, i, t, m)
    ensures s.policy.maxAttempts > 0 && Reachable(s, t) && m in RankedAt(s, t)
  {
    var u := s.(env := env);
    WorldsRankAlike(s, env);
    hide Reachable, RankedAt, WellBehaved;
    EntriesAreReachable(u, log, i);
    EntriesAreRanked(u, log, i);
    PrefixLawful(u, log, i);
    hide Lawful, Attempts, LawfulAttempt;
    assert LawfulEntry(u, log[..i], log[i]);
  }
}
