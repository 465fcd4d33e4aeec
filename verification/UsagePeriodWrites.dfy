/** What each call writes to usage periods and grants, row by row (db/billing_repository.py). */
module UsagePeriodWrites {
  import opened Prelude
  import opened UsageTables
  import opened UsagePeriods

  // -- grants ----------------------------------------------------------------------------------------

  /** Whatever is not a grant is as it was. */
  predicate OnlyGrants(s: State, t: State) {
    t.accounts == s.accounts && t.periods == s.periods && t.counters == s.counters
  }

  /** A revocation closes the account's active grant, with its moment, and leaves the account without one. */
  lemma RevokeWrites(s: State, account: Uuid, now: Time)
    requires OneActiveGrant(s.grants)
    ensures var t := Step(s, RevokeGrant(account, now));
            && OnlyGrants(s, t) && t.grants.Keys == s.grants.Keys
            && (forall g :: g in t.grants && t.grants[g].account == account ==> t.grants[g].status != GrantActive)
            && (forall g :: g in s.grants ==>
                  var was := s.grants[g];
                  t.grants[g] == if was.account == account && was.status == GrantActive then
                                   Grant(was.account, was.plan, was.startsAt, was.expiresAt, GrantRevoked, Some(now))
                                 else was)
  {
  }

  /** A grant can be issued: the plan is one of the two and the dates are in order. */
  predicate Issuable(s: State, account: Uuid, plan: string, startsAt: Time, expiresAt: Time) {
    account in s.accounts && plan in {"plus", "pro"} && startsAt < expiresAt
  }

  predicate HasUnexpired(s: State, account: Uuid, now: Time) {
    exists g :: g in s.grants && s.grants[g].account == account && s.grants[g].status == GrantActive &&
                  s.grants[g].expiresAt > now
  }

  /** An issue ends the account's grants that are over and adds the new one, if none is left and the table admits it. */
  lemma IssueWrites(s: State, newId: Uuid, account: Uuid, plan: string, startsAt: Time, expiresAt: Time, now: Time)
    requires newId !in s.grants && account in s.accounts
    ensures var t := Step(s, IssueGrant(newId, account, plan, startsAt, expiresAt, now));
            && OnlyGrants(s, t)
            && (forall g :: g in s.grants ==>
                  var was := s.grants[g];
                  g in t.grants &&
                    t.grants[g] == was.(status := if was.account == account && was.status == GrantActive &&
                                                     was.expiresAt <= now then GrantExpired else was.status))
            && if Issuable(s, account, plan, startsAt, expiresAt) && !HasUnexpired(s, account, now) then
                 t.grants.Keys == s.grants.Keys + {newId} &&
                 t.grants[newId] == Grant(account, plan, startsAt, expiresAt, GrantActive, None)
               else t.grants.Keys == s.grants.Keys
  {
    var retired := Retired(s.grants, account, now);
    if HasUnexpired(s, account, now) {
      var g :| g in s.grants && s.grants[g].account == account && s.grants[g].status == GrantActive &&
        s.grants[g].expiresAt > now;
      assert g in retired && retired[g] == s.grants[g];
    }
  }

  /** A plan change: right after a revocation the account gets its new grant, and then has that one only. */
  lemma RevokeThenIssue(s: State, account: Uuid, now: Time, newId: Uuid, plan: string, startsAt: Time, expiresAt: Time,
                        later: Time)
    requires OneActiveGrant(s.grants) && newId !in s.grants && Issuable(s, account, plan, startsAt, expiresAt)
    ensures var t := Step(Step(s, RevokeGrant(account, now)),
                          IssueGrant(newId, account, plan, startsAt, expiresAt, later));
            && newId in t.grants && t.grants[newId] == Grant(account, plan, startsAt, expiresAt, GrantActive, None)
            && forall g :: g in t.grants && t.grants[g].account == account && t.grants[g].status == GrantActive ==>
                 g == newId
  {
    var u := Step(s, RevokeGrant(account, now));
    RevokeWrites(s, account, now);
    IssueWrites(u, newId, account, plan, startsAt, expiresAt, later);
    hide Step, OneActiveGrant;
  }

  // -- periods ---------------------------------------------------------------------------------------

  predicate OnlyPeriods(s: State, t: State) {
    t.accounts == s.accounts && t.grants == s.grants && t.counters == s.counters
  }

  /** The place of a period: its start, under its grant, or without one under its account. */
  predicate SamePlace(p: Period, q: Period) {
    p.startsAt == q.startsAt &&
    if p.grant.Some? then q.grant == p.grant else q.grant.None? && q.account == p.account
  }

  predicate PlaceIsFree(s: State, p: Period) {
    forall id :: id in s.periods ==> !SamePlace(p, s.periods[id])
  }

  /** What the table admits: it ends after it starts, and has at most one source. */
  predicate Admitted(p: Period) {
    p.startsAt < p.endsAt && !(p.subscription.Some? && p.grant.Some?)
  }

  lemma CreateWrites(s: State, newId: Uuid, p: Period)
    requires newId !in s.periods
    ensures var t := Step(s, Create(newId, p));
            if Admitted(p) && PlaceIsFree(s, p) then
              OnlyPeriods(s, t) && t.periods == s.periods[newId := p.(status := Active)]
            else t == s
  {
  }

  /** Whoever has the place is the same period, whether it is open or not. */
  predicate SamePeriodThere(s: State, p: Period) {
    forall id :: id in s.periods && SamePlace(p, s.periods[id]) ==>
      var q := s.periods[id];
      q.account == p.account && q.subscription == p.subscription && q.plan == p.plan && q.endsAt == p.endsAt
  }

  /** The one row of the place is open and as given; every other row is as it was. */
  predicate Opened(s: State, t: State, newId: Uuid, p: Period) {
    && OnlyPeriods(s, t)
    && (forall id :: id in s.periods && !SamePlace(p, s.periods[id]) ==>
          id in t.periods && t.periods[id] == s.periods[id])
    && (forall id :: id in s.periods && SamePlace(p, s.periods[id]) ==>
          id in t.periods && t.periods[id] == p.(status := Active))
    && (if PlaceIsFree(s, p) then
          t.periods.Keys == s.periods.Keys + {newId} && t.periods[newId] == p.(status := Active)
        else t.periods.Keys == s.periods.Keys)
  }

  /** A place taken by another definition is refused. */
  lemma GetOrCreateWrites(s: State, newId: Uuid, p: Period)
    requires newId !in s.periods && PeriodsUnique(s.periods)
    ensures var t := Step(s, GetOrCreate(newId, p));
            if Admitted(p) && SamePeriodThere(s, p) then Opened(s, t, newId, p) else t == s
  {
    PlacesAreSlots(s.periods, p);
    MatchingIsTheSame(s, p);
    hide Matches, SamePeriodThere;
    if Admitted(p) { PutOpens(s, newId, p); }
    hide Opened, PutInSlot;
  }

  /** A provider's period takes its place whoever had it; a grant's only from the same definition. */
  lemma SynchronizeWrites(s: State, newId: Uuid, p: Period)
    requires newId !in s.periods && PeriodsUnique(s.periods)
    ensures var t := Step(s, Synchronize(newId, p));
            if Admitted(p) && (p.grant.None? || SamePeriodThere(s, p)) then Opened(s, t, newId, p) else t == s
  {
    PlacesAreSlots(s.periods, p);
    MatchingIsTheSame(s, p);
    hide Matches, SamePeriodThere;
    if Admitted(p) { PutOpens(s, newId, p); }
    hide Opened, PutInSlot;
  }

  lemma MatchingIsTheSame(s: State, p: Period)
    ensures Matches(s.periods, p) <==> SamePeriodThere(s, p)
  {
    PlacesAreSlots(s.periods, p);
    if SamePeriodThere(s, p) {
      forall id | id in s.periods && SameSlot(s.periods[id], p)
        ensures s.periods[id] == p.(status := s.periods[id].status)
      {
        assert SamePlace(p, s.periods[id]);
      }
    }
    if Matches(s.periods, p) {
      forall id | id in s.periods && SamePlace(p, s.periods[id])
        ensures var q := s.periods[id];
                q.account == p.account && q.subscription == p.subscription && q.plan == p.plan && q.endsAt == p.endsAt
      {
        assert SameSlot(s.periods[id], p);
      }
    }
  }

  lemma PutOpens(s: State, newId: Uuid, p: Period)
    requires newId !in s.periods && PeriodsUnique(s.periods)
    ensures Opened(s, PutInSlot(s, newId, p), newId, p)
  {
    PlacesAreSlots(s.periods, p);
    forall a, b | a in s.periods && b in s.periods && SamePlace(p, s.periods[a]) && SamePlace(p, s.periods[b])
      ensures a == b
    {
      assert SameSlot(s.periods[a], p) && SameSlot(s.periods[b], p);
      assert SameSlot(s.periods[a], s.periods[b]);
    }
    hide SameSlot, SamePlace, PeriodsUnique;
  }

  lemma PlacesAreSlots(periods: map<Uuid, Period>, p: Period)
    ensures forall id :: id in periods ==> (SameSlot(periods[id], p) <==> SamePlace(p, periods[id]))
  {
  }

  /** The named period is closed; no other row and nothing else of it changes. */
  lemma CloseWrites(s: State, id: Uuid)
    ensures var t := Step(s, Close(id));
            && OnlyPeriods(s, t) && t.periods.Keys == s.periods.Keys
            && (id in t.periods ==> t.periods[id].status == Closed)
            && forall x :: x in s.periods ==>
                 t.periods[x].(status := s.periods[x].status) == s.periods[x] &&
                 (x != id ==> t.periods[x].status == s.periods[x].status)
  {
  }

  /** No period of the grant stays open; all others keep their status. */
  lemma CloseGrantWrites(s: State, grant: Uuid)
    ensures var t := Step(s, CloseGrant(grant));
            && OnlyPeriods(s, t) && t.periods.Keys == s.periods.Keys
            && forall x :: x in s.periods ==>
                 && t.periods[x].(status := s.periods[x].status) == s.periods[x]
                 && (s.periods[x].grant == Some(grant) ==> t.periods[x].status == Closed)
                 && (s.periods[x].grant != Some(grant) ==> t.periods[x].status == s.periods[x].status)
  {
  }
}
