/** The trace of a smart run kept in the response metadata (orchestrator/core.py, orchestrator/smart_router.py). */
module RoutingTrace {
  import opened Prelude
  import opened Sequences
  import opened Routing
  import opened FallbackManager
  import opened ResponseValidator
  import opened AttemptLoop
  import opened AttemptLoopProperties

  datatype Status = Pending | Success | Failed

  /** One model of the initial ranking; `order` counts from 1. */
  datatype Planned = Planned(order: nat, key: ModelKey, status: Status)

  datatype AttemptRecord = AttemptRecord(number: nat, tier: Tier, key: ModelKey, reason: Reason, status: Status)

  /** `order` is the place in the plan, if the model was still pending there. */
  datatype Selected = Selected(number: nat, tier: Tier, key: ModelKey, status: Status, order: Option<nat>)

  datatype Trace = Trace(attempts: seq<AttemptRecord>, plan: seq<Planned>, selected: seq<Selected>)

  function StatusOf(reason: Reason): Status {
    if reason == Valid then Success else Failed
  }

  function InitialPlan(ordered: seq<Candidate>): seq<Planned> {
    seq(|ordered|, i requires 0 <= i < |ordered| => Planned(i + 1, ordered[i].Key(), Pending))
  }

  /** The place of the first pending entry for the model. */
  function FirstPending(plan: seq<Planned>, key: ModelKey): (r: Option<nat>)
    ensures r.Some? ==> r.value < |plan| && plan[r.value].key == key && plan[r.value].status == Pending
    ensures r.Some? ==> forall i :: 0 <= i < r.value ==> !(plan[i].key == key && plan[i].status == Pending)
    ensures r.None? ==> forall i :: 0 <= i < |plan| ==> !(plan[i].key == key && plan[i].status == Pending)
  {
    if plan == [] then None
    else if plan[0].key == key && plan[0].status == Pending then Some(0)
    else
      var rest := FirstPending(plan[1..], key);
      if rest.Some? then Some(rest.value + 1) else None
  }

  function Recorded(t: Trace, number: nat, tier: Tier, key: ModelKey, reason: Reason): Trace {
    var place := FirstPending(t.plan, key);
    var status := StatusOf(reason);
    Trace(
      t.attempts + [AttemptRecord(number, tier, key, reason, status)],
      if place.Some? then t.plan[place.value := t.plan[place.value].(status := status)] else t.plan,
      t.selected + [Selected(number, tier, key, status, if place.Some? then Some(t.plan[place.value].order) else None)])
  }

  class RoutingMetadata {
    var attempts: seq<AttemptRecord>
    var plan: seq<Planned>
    var selected: seq<Selected>
    /** The first three models selected. */
    var slots: seq<Option<Selected>>

    constructor (ordered: seq<Candidate>)
      ensures Contents() == Trace([], InitialPlan(ordered), [])
    {
      attempts, selected, slots := [], [], [None, None, None];
      plan := InitialPlan(ordered);
    }

    function Contents(): Trace
      reads this
    {
      Trace(attempts, plan, selected)
    }

    /** Append the attempt, settle its plan entry if one is pending, and refresh the three slots. */
    method UpdateForAttempt(number: nat, tier: Tier, key: ModelKey, reason: Reason)
      modifies this
      ensures Contents() == Recorded(old(Contents()), number, tier, key, reason)
      ensures |slots| == 3 && forall k :: 0 <= k < 3 ==> slots[k] == if k < |selected| then Some(selected[k]) else None
    {
      var status := StatusOf(reason);
      attempts := attempts + [AttemptRecord(number, tier, key, reason, status)];
      var i := 0;
      while i < |plan| && !(plan[i].key == key && plan[i].status == Pending)
        invariant i <= |plan|
        invariant forall j :: 0 <= j < i ==> !(plan[j].key == key && plan[j].status == Pending)
      {
        i := i + 1;
      }
      var order := None;
      if i < |plan| {
        assert FirstPending(plan, key) == Some(i);
        order := Some(plan[i].order);
        plan := plan[i := plan[i].(status := status)];
      }
      selected := selected + [Selected(number, tier, key, status, order)];
      slots := [if |selected| > 0 then Some(selected[0]) else None,
                if |selected| > 1 then Some(selected[1]) else None,
                if |selected| > 2 then Some(selected[2]) else None];
    }
  }

  /** The trace after the attempts of a log, in order. */
  function TraceOf(ordered: seq<Candidate>, log: seq<Entry>): Trace {
    if log == [] then Trace([], InitialPlan(ordered), [])
    else
      var before := TraceOf(ordered, Front(log));
      var e := Last(log);
      if e.attempt.None? then before
      else Recorded(before, e.attempt.value.number, e.tier, e.candidate.Key(), e.attempt.value.reason)
  }

  /** The attempt that settled a model, if there was one. */
  ghost predicate Settles(e: Entry, key: ModelKey, status: Status) {
    e.attempt.Some? && e.candidate.Key() == key && StatusOf(e.attempt.value.reason) == status
  }

  ghost predicate PlanTells(ordered: seq<Candidate>, log: seq<Entry>, i: nat)
    requires i < |ordered|
  {
    var t := TraceOf(ordered, log);
    && |t.plan| == |ordered| && t.plan[i].order == i + 1 && t.plan[i].key == ordered[i].Key()
    && (t.plan[i].status == Pending <==>
        forall n :: 0 <= n < |log| ==> log[n].attempt.Some? ==> log[n].candidate.Key() != ordered[i].Key())
    && (t.plan[i].status != Pending ==>
          exists n :: 0 <= n < |log| && Settles(log[n], ordered[i].Key(), t.plan[i].status))
  }

  /** An entry that is no attempt, or another model's, tells nothing new of the i-th model. */
  lemma OthersTellNothing(ordered: seq<Candidate>, log: seq<Entry>, i: nat)
    requires i < |ordered| && log != [] && PlanTells(ordered, Front(log), i)
    requires Last(log).attempt.None? || Last(log).candidate.Key() != ordered[i].Key()
    ensures PlanTells(ordered, log, i)
  {
    var before := Front(log);
    var t, u := TraceOf(ordered, before), TraceOf(ordered, log);
    assert |u.plan| == |ordered| && u.plan[i] == t.plan[i];
    hide TraceOf;
    assert forall n :: 0 <= n < |before| ==> log[n] == before[n];
    if t.plan[i].status != Pending {
      var n :| 0 <= n < |before| && Settles(before[n], ordered[i].Key(), t.plan[i].status);
      assert Settles(log[n], ordered[i].Key(), t.plan[i].status);
    }
  }

  /** The one attempt at the i-th model settles its entry. */
  lemma OwnAttemptTells(ordered: seq<Candidate>, log: seq<Entry>, i: nat)
    requires i < |ordered| && log != [] && PlanTells(ordered, Front(log), i)
    requires Last(log).attempt.Some? && Last(log).candidate.Key() == ordered[i].Key()
    requires forall n :: 0 <= n < |log| - 1 ==> log[n].candidate.Key() != ordered[i].Key()
    requires forall j :: 0 <= j < |ordered| && j != i ==> ordered[j].Key() != ordered[i].Key()
    ensures PlanTells(ordered, log, i)
  {
    var before, e := Front(log), Last(log);
    var t := TraceOf(ordered, before);
    PlanKeeps(ordered, before);
    assert t.plan[i].status == Pending && FirstPending(t.plan, e.candidate.Key()) == Some(i);
    assert TraceOf(ordered, log).plan == t.plan[i := t.plan[i].(status := StatusOf(e.attempt.value.reason))];
    hide TraceOf, FirstPending;
    assert Settles(log[|log| - 1], ordered[i].Key(), StatusOf(e.attempt.value.reason));
  }

  /**
    The plan tells what became of every ranked model: an entry is pending exactly when the model was never invoked,
    and otherwise has the status of its one attempt.
   */
  lemma {:induction false} PlanStatusesTellTheRun(s: Setting, ordered: seq<Candidate>, log: seq<Entry>, i: nat)
    requires WellBehaved(s) && Lawful(s, log) && s.ranking(s.initialTier) == Ok(ordered) && i < |ordered|
    ensures PlanTells(ordered, log, i)
  {
    if log != [] {
      PlanStatusesTellTheRun(s, ordered, Front(log), i);
      NotInvokedBefore(s, log, |log| - 1);
      PlanKeysDiffer(s, ordered, i);
      hide PlanTells, Lawful, WellBehaved;
      if Last(log).attempt.Some? && Last(log).candidate.Key() == ordered[i].Key() {
        OwnAttemptTells(ordered, log, i);
      } else {
        OthersTellNothing(ordered, log, i);
      }
    }
  }

  lemma NotInvokedBefore(s: Setting, log: seq<Entry>, n: nat)
    requires WellBehaved(s) && Lawful(s, log) && n < |log|
    ensures forall m :: 0 <= m < n ==> log[m].candidate.Key() != log[n].candidate.Key()
  {
    forall m | 0 <= m < n ensures log[m].candidate.Key() != log[n].candidate.Key() {
      NoModelTwice(s, log, m, n);
    }
  }

  lemma PlanKeysDiffer(s: Setting, ordered: seq<Candidate>, i: nat)
    requires WellBehaved(s) && s.ranking(s.initialTier) == Ok(ordered) && i < |ordered|
    ensures forall j :: 0 <= j < |ordered| && j != i ==> ordered[j].Key() != ordered[i].Key()
  {
    assert RankedAt(s, s.initialTier) == ordered;
  }

  lemma {:induction false} PlanKeeps(ordered: seq<Candidate>, log: seq<Entry>)
    ensures var t := TraceOf(ordered, log);
            |t.plan| == |ordered| && forall j :: 0 <= j < |ordered| ==> t.plan[j].key == ordered[j].Key()
  {
    if log != [] { PlanKeeps(ordered, Front(log)); }
  }

  /** One record and one selection for the attempt, with its number and status. */
  predicate Noted(record: AttemptRecord, selected: Selected, number: nat, e: Entry) {
    && e.attempt.Some?
    && record == AttemptRecord(number, e.tier, e.candidate.Key(), e.attempt.value.reason,
                               StatusOf(e.attempt.value.reason))
    && selected.number == number && selected.tier == e.tier && selected.key == record.key &&
       selected.status == record.status
  }

  ghost predicate Matches(t: Trace, done: seq<Entry>) {
    |t.attempts| == |t.selected| == |done| &&
    forall k :: 0 <= k < |done| ==> Noted(t.attempts[k], t.selected[k], k + 1, done[k])
  }

  lemma OneMoreMatches(t: Trace, done: seq<Entry>, e: Entry)
    requires Matches(t, done) && e.attempt.Some?
    ensures Matches(Recorded(t, |done| + 1, e.tier, e.candidate.Key(), e.attempt.value.reason), done + [e])
  {
  }

  /** One record and one selection per attempt, numbered in order, with the attempt's own status. */
  lemma {:induction false} TraceMatchesAttempts(s: Setting, ordered: seq<Candidate>, log: seq<Entry>)
    requires Lawful(s, log)
    ensures Matches(TraceOf(ordered, log), Attempts(log))
  {
    if log != [] {
      TraceMatchesAttempts(s, ordered, Front(log));
      LastIsNumbered(s, log);
      hide Lawful, Matches, Recorded;
      if Last(log).attempt.Some? {
        OneMoreMatches(TraceOf(ordered, Front(log)), Attempts(Front(log)), Last(log));
      } else {
        assert Attempts(log) == Attempts(Front(log));
      }
    }
  }

  /** A record says of an attempt what it was, and calls it a success for a valid answer only. */
  lemma RecordTells(t: Trace, number: nat, tier: Tier, key: ModelKey, reason: Reason)
    ensures var u := Recorded(t, number, tier, key, reason);
            var status := if reason == Valid then Success else Failed;
            && u.attempts == t.attempts + [AttemptRecord(number, tier, key, reason, status)]
            && |u.selected| == |t.selected| + 1 && u.selected[..|t.selected|] == t.selected
            && u.selected[|t.selected|] == Selected(number, tier, key, status, u.selected[|t.selected|].order)
            && |u.plan| == |t.plan|
            && (u.selected[|t.selected|].order.None? <==>
                  forall i :: 0 <= i < |t.plan| ==> t.plan[i].key != key || t.plan[i].status != Pending)
            && forall i :: 0 <= i < |t.plan| ==>
                 if t.plan[i].key == key && t.plan[i].status == Pending &&
                    (forall j :: 0 <= j < i ==> t.plan[j].key != key || t.plan[j].status != Pending) then
                   u.plan[i] == t.plan[i].(status := status) && u.selected[|t.selected|].order == Some(t.plan[i].order)
                 else u.plan[i] == t.plan[i]
  {
  }
}
