/**
  Usage periods and subscription grants, and the uniqueness that prevents a second allowance
  (db/billing_repository.py).
 */
module UsagePeriods {
  import opened Prelude
  import opened UsageTables

  datatype PeriodStatus = Active | Closed

  datatype Period = Period(
    account: Uuid,
    subscription: Option<Uuid>,
    grant: Option<Uuid>,
    plan: string,
    startsAt: Time,
    endsAt: Time,
    status: PeriodStatus)

  datatype GrantStatus = GrantActive | GrantExpired | GrantRevoked

  datatype Grant = Grant(
    account: Uuid,
    plan: string,
    startsAt: Time,
    expiresAt: Time,
    status: GrantStatus,
    revokedAt: Option<Time>)

  /** The counters belong to the usage store; no function here writes them. */
  datatype State = State(
    accounts: set<Uuid>,
    periods: map<Uuid, Period>,
    grants: map<Uuid, Grant>,
    counters: map<CounterKey, Counter>)

  datatype PeriodError = BadRequest | IntegrityViolation | Unreadable | Conflicting | NoAccount | OpenGrant

  /** The partial unique indexes: (account, start) without a grant, (grant, start) with one. */
  predicate SameSlot(p: Period, q: Period) {
    p.startsAt == q.startsAt && p.grant == q.grant && (p.grant.None? ==> p.account == q.account)
  }

  ghost function InSlot(periods: map<Uuid, Period>, p: Period): (r: Option<Uuid>)
    ensures r.Some? ==> r.value in periods && SameSlot(periods[r.value], p)
    ensures r.None? ==> forall id :: id in periods ==> !SameSlot(periods[id], p)
  {
    if id :| id in periods && SameSlot(periods[id], p) then Some(id) else None
  }

  ghost predicate PeriodsUnique(periods: map<Uuid, Period>) {
    forall a, b :: a in periods && b in periods && SameSlot(periods[a], periods[b]) ==> a == b
  }

  ghost predicate OneActiveGrant(grants: map<Uuid, Grant>) {
    forall a, b ::
      (a in grants && b in grants && grants[a].account == grants[b].account &&
       grants[a].status == GrantActive && grants[b].status == GrantActive) ==> a == b
  }

  predicate Elapsed(g: Grant, account: Uuid, now: Time) {
    g.account == account && g.status == GrantActive && g.expiresAt <= now
  }

  /** An active grant that the given moment has not yet ended. */
  predicate Open(g: Grant, account: Uuid, now: Time) {
    g.account == account && g.status == GrantActive && now < g.expiresAt
  }

  /** The check constraints on a grant's plan and dates. */
  predicate ValidGrant(plan: string, startsAt: Time, expiresAt: Time) {
    (plan == "plus" || plan == "pro") && startsAt < expiresAt
  }

  /** Whoever sits in the slot already has exactly this definition, status aside. */
  ghost predicate Matches(periods: map<Uuid, Period>, p: Period) {
    forall id :: id in periods && SameSlot(periods[id], p) ==> periods[id] == p.(status := periods[id].status)
  }

  /** One atomic call; inserts use an id nobody else has. Metered stands for the usage store writing one counter. */
  datatype Op =
    | Create(newId: Uuid, p: Period)
    | GetOrCreate(newId: Uuid, p: Period)
    | Synchronize(newId: Uuid, p: Period)
    | Close(id: Uuid)
    | CloseGrant(grant: Uuid)
    | IssueGrant(newId: Uuid, account: Uuid, plan: string, startsAt: Time, expiresAt: Time, now: Time)
    | RevokeGrant(account: Uuid, now: Time)
    | Metered(key: CounterKey, counter: Counter)

  predicate ValidPeriod(p: Period) {
    p.startsAt < p.endsAt && (p.subscription.None? || p.grant.None?)
  }

  function Put(s: State, id: Uuid, p: Period): State {
    s.(periods := s.periods[id := p.(status := Active)])
  }

  /** Overwrite the row that sits in the slot, or insert one. */
  ghost function PutInSlot(s: State, newId: Uuid, p: Period): State {
    var slot := InSlot(s.periods, p);
    Put(s, if slot.Some? then slot.value else newId, p)
  }

  function Retired(grants: map<Uuid, Grant>, account: Uuid, now: Time): map<Uuid, Grant> {
    map g | g in grants :: if Elapsed(grants[g], account, now) then grants[g].(status := GrantExpired) else grants[g]
  }

  ghost function OpenGrantOf(grants: map<Uuid, Grant>, account: Uuid): (r: Option<Uuid>)
    ensures r.Some? ==> r.value in grants && grants[r.value].account == account && grants[r.value].status == GrantActive
    ensures r.None? ==> forall g :: g in grants && grants[g].account == account ==> grants[g].status != GrantActive
  {
    if g :| g in grants && grants[g].account == account && grants[g].status == GrantActive then Some(g) else None
  }

  ghost function Step(s: State, op: Op): State {
    match op
    case Create(newId, p) =>
      if ValidPeriod(p) && InSlot(s.periods, p).None? then Put(s, newId, p) else s
    case GetOrCreate(newId, p) =>
      if ValidPeriod(p) && Matches(s.periods, p) then PutInSlot(s, newId, p) else s
    case Synchronize(newId, p) =>
      if ValidPeriod(p) && (p.grant.Some? ==> Matches(s.periods, p)) then PutInSlot(s, newId, p) else s
    case Close(id) =>
      if id in s.periods then s.(periods := s.periods[id := s.periods[id].(status := Closed)]) else s
    case CloseGrant(grant) =>
      s.(periods := map id | id in s.periods ::
           if s.periods[id].grant == Some(grant) then s.periods[id].(status := Closed) else s.periods[id])
    case IssueGrant(newId, account, plan, startsAt, expiresAt, now) =>
      if account !in s.accounts then s
      else
        var retired := Retired(s.grants, account, now);
        if OpenGrantOf(retired, account).Some? || !ValidGrant(plan, startsAt, expiresAt) then s.(grants := retired)
        else s.(grants := retired[newId := Grant(account, plan, startsAt, expiresAt, GrantActive, None)])
    case RevokeGrant(account, now) =>
      var open := OpenGrantOf(s.grants, account);
      if open.None? then s
      else s.(grants := s.grants[open.value := s.grants[open.value].(status := GrantRevoked, revokedAt := Some(now))])
    case Metered(key, counter) => s.(counters := s.counters[key := counter])
  }

  predicate Legal(s: State, op: Op) {
    match op
    case Create(newId, _) => newId !in s.periods
    case GetOrCreate(newId, _) => newId !in s.periods
    case Synchronize(newId, _) => newId !in s.periods
    case IssueGrant(newId, _, _, _, _, _) => newId !in s.grants
    case _ => true
  }

  ghost predicate Sound(s: State) {
    && PeriodsUnique(s.periods) && OneActiveGrant(s.grants)
    && forall id :: id in s.periods ==> ValidPeriod(s.periods[id])
  }

  class PeriodStore {
    const accounts: set<Uuid>
    var periods: map<Uuid, Period>
    var grants: map<Uuid, Grant>
    const counters: map<CounterKey, Counter>

    constructor (accounts: set<Uuid>, counters: map<CounterKey, Counter>)
      ensures Contents() == State(accounts, map[], map[], counters)
    {
      this.accounts, this.counters := accounts, counters;
      periods, grants := map[], map[];
    }

    ghost function Contents(): State
      reads this
    {
      State(accounts, periods, grants, counters)
    }

    /** Insert-only; the index refuses a taken slot and the check constraint a double source. */
    method CreateUsagePeriod(newId: Uuid, p: Period) returns (r: Result<Uuid, PeriodError>)
      modifies this`periods
      ensures Contents() == Step(old(Contents()), Create(newId, p))
      ensures r.Ok? <==> ValidPeriod(p) && InSlot(old(periods), p).None?
    {
      if p.endsAt <= p.startsAt { return Err(BadRequest); }
      if p.subscription.Some? && p.grant.Some? { return Err(IntegrityViolation); }
      if exists id :: id in periods && SameSlot(periods[id], p) { return Err(IntegrityViolation); }
      periods := periods[newId := p.(status := Active)];
      r := Ok(newId);
    }

    /** Create the exact period, or return its row, reactivated if it was closed; a different definition is refused. */
    method GetOrCreateUsagePeriod(newId: Uuid, p: Period) returns (r: Result<Uuid, PeriodError>)
      requires PeriodsUnique(periods)
      modifies this`periods
      ensures Contents() == Step(old(Contents()), GetOrCreate(newId, p))
      ensures r.Ok? ==> r.value in periods && periods[r.value] == p.(status := Active)
      ensures r.Ok? <==> ValidPeriod(p) && Matches(old(periods), p)
    {
      if p.endsAt <= p.startsAt { return Err(BadRequest); }
      if p.subscription.Some? && p.grant.Some? { return Err(BadRequest); }
      if id :| id in periods && SameSlot(periods[id], p) {
        assert InSlot(periods, p) == Some(id);
        var existing := periods[id];
        if existing.account != p.account { return Err(Unreadable); }
        if existing.subscription != p.subscription || existing.plan != p.plan || existing.endsAt != p.endsAt {
          return Err(Conflicting);
        }
        if existing.status == Closed { periods := periods[id := existing.(status := Active)]; }
        assert periods == old(periods)[id := p.(status := Active)];
        return Ok(id);
      }
      assert InSlot(periods, p).None?;
      periods := periods[newId := p.(status := Active)];
      r := Ok(newId);
    }

    /** Provider periods are updated in place under their account and start; grant periods must match exactly. */
    method SynchronizeUsagePeriod(newId: Uuid, p: Period) returns (r: Result<Uuid, PeriodError>)
      requires PeriodsUnique(periods)
      modifies this`periods
      ensures Contents() == Step(old(Contents()), Synchronize(newId, p))
      ensures r.Ok? ==> r.value in periods && periods[r.value] == p.(status := Active)
      ensures ValidPeriod(p) && p.grant.None? ==> r.Ok?
    {
      if p.endsAt <= p.startsAt { return Err(BadRequest); }
      if p.grant.Some? {
        r := GetOrCreateUsagePeriod(newId, p);
        return;
      }
      if id :| id in periods && SameSlot(periods[id], p) {
        assert InSlot(periods, p) == Some(id);
        periods := periods[id := periods[id].(subscription := p.subscription, plan := p.plan, endsAt := p.endsAt,
                                              status := Active)];
        return Ok(id);
      }
      assert InSlot(periods, p).None?;
      periods := periods[newId := p.(status := Active)];
      r := Ok(newId);
    }

    method CloseUsagePeriod(id: Uuid) returns (found: bool)
      modifies this`periods
      ensures Contents() == Step(old(Contents()), Close(id)) && (found <==> id in old(periods))
    {
      found := id in periods;
      if found { periods := periods[id := periods[id].(status := Closed)]; }
    }

    method CloseGrantUsagePeriods(grant: Uuid)
      modifies this`periods
      ensures Contents() == Step(old(Contents()), CloseGrant(grant))
    {
      ghost var before := periods;
      var todo := set id | id in periods && periods[id].grant == Some(grant) && periods[id].status == Active;
      while todo != {}
        invariant periods.Keys == before.Keys && todo <= periods.Keys
        invariant forall id :: id in before ==>
                    periods[id] ==
                    if before[id].grant == Some(grant) && id !in todo then before[id].(status := Closed) else before[id]
      {
        var id :| id in todo;
        periods := periods[id := periods[id].(status := Closed)];
        todo := todo - {id};
      }
      assert periods == Step(old(Contents()), CloseGrant(grant)).periods;
    }

    /** Retire elapsed grants of the account, then issue a new one unless one is still open. */
    method CreateSubscriptionGrant(newId: Uuid, account: Uuid, plan: string, startsAt: Time, expiresAt: Time, now: Time)
      returns (r: Result<Uuid, PeriodError>)
      modifies this`grants
      ensures Contents() == Step(old(Contents()), IssueGrant(newId, account, plan, startsAt, expiresAt, now))
      ensures account !in accounts <==> r == Err(NoAccount)
      ensures r == Err(OpenGrant) <==>
              account in accounts && (exists g :: g in old(grants) && Open(old(grants)[g], account, now))
      ensures r.Ok? <==> account in accounts && ValidGrant(plan, startsAt, expiresAt) &&
                         (forall g :: g in old(grants) ==> !Open(old(grants)[g], account, now))
    {
      if account !in accounts { return Err(NoAccount); }
      grants := map g | g in grants :: if Elapsed(grants[g], account, now) then grants[g].(status := GrantExpired)
        else grants[g];
      assert grants == Retired(old(grants), account, now);
      if g :| g in grants && grants[g].account == account && grants[g].status == GrantActive {
        assert OpenGrantOf(grants, account).Some?;
        assert g in old(grants);
        return Err(OpenGrant);
      }
      assert forall g :: g in old(grants) ==> g in grants;
      if !ValidGrant(plan, startsAt, expiresAt) { return Err(IntegrityViolation); }
      grants := grants[newId := Grant(account, plan, startsAt, expiresAt, GrantActive, None)];
      r := Ok(newId);
    }

    method RevokeCurrentSubscriptionGrant(account: Uuid, now: Time) returns (r: Option<Uuid>)
      requires OneActiveGrant(grants)
      modifies this`grants
      ensures Contents() == Step(old(Contents()), RevokeGrant(account, now)) && r == OpenGrantOf(old(grants), account)
    {
      if g :| g in grants && grants[g].account == account && grants[g].status == GrantActive {
        assert OpenGrantOf(grants, account) == Some(g);
        grants := grants[g := grants[g].(status := GrantRevoked, revokedAt := Some(now))];
        return Some(g);
      }
      r := None;
    }
  }

  // -- every run -----------------------------------------------------------------------------------

  ghost function Run(s: State, ops: seq<Op>): State {
    if ops == [] then s else Step(Run(s, ops[..|ops| - 1]), ops[|ops| - 1])
  }

  ghost predicate LegalRun(s: State, ops: seq<Op>) {
    ops != [] ==> LegalRun(s, ops[..|ops| - 1]) && Legal(Run(s, ops[..|ops| - 1]), ops[|ops| - 1])
  }

  lemma PutInSlotKeepsUnique(s: State, newId: Uuid, p: Period)
    requires PeriodsUnique(s.periods) && newId !in s.periods
    ensures PeriodsUnique(PutInSlot(s, newId, p).periods)
  {
  }

  lemma GrantStepKeepsOne(s: State, op: Op)
    requires OneActiveGrant(s.grants) && Legal(s, op) && (op.IssueGrant? || op.RevokeGrant?)
    ensures OneActiveGrant(Step(s, op).grants) && Step(s, op).periods == s.periods
  {
    if op.IssueGrant? {
      assert OneActiveGrant(Retired(s.grants, op.account, op.now));
      hide Retired;
    }
  }

  lemma StepKeepsSound(s: State, op: Op)
    requires Sound(s) && Legal(s, op)
    ensures Sound(Step(s, op))
  {
    if op.IssueGrant? || op.RevokeGrant? {
      GrantStepKeepsOne(s, op);
    } else {
      if op.Create? || op.GetOrCreate? || op.Synchronize? {
        PutInSlotKeepsUnique(s, op.newId, op.p);
      }
      hide OneActiveGrant;
    }
  }

  /** At most one period per slot and one open grant per account, in every reachable state. */
  lemma {:induction false} UniquenessAlways(s: State, ops: seq<Op>)
    requires Sound(s) && LegalRun(s, ops)
    ensures Sound(Run(s, ops))
  {
    if ops != [] {
      UniquenessAlways(s, ops[..|ops| - 1]);
      StepKeepsSound(Run(s, ops[..|ops| - 1]), ops[|ops| - 1]);
    }
  }

  /** What the account's period starting at this moment has used and reserved so far. */
  ghost function UsageIn(s: State, p: Period, meter: string): Counter
    requires InSlot(s.periods, p).Some?
  {
    Reading(s.counters, CounterKey(InSlot(s.periods, p).value, meter))
  }

  lemma SlotSurvivesStep(s: State, op: Op, id: Uuid)
    requires Sound(s) && Legal(s, op) && id in s.periods
    ensures id in Step(s, op).periods && SameSlot(Step(s, op).periods[id], s.periods[id])
    ensures !op.Metered? ==> Step(s, op).counters == s.counters
  {
  }

  /** The counters as the usage store alone would have left them. */
  ghost function MeteredOnly(counters: map<CounterKey, Counter>, ops: seq<Op>): map<CounterKey, Counter> {
    if ops == [] then counters
    else
      var earlier := MeteredOnly(counters, ops[..|ops| - 1]);
      var op := ops[|ops| - 1];
      if op.Metered? then earlier[op.key := op.counter] else earlier
  }

  /**
    No second allowance: whatever plan changes, closings, reactivations and grants follow, a slot keeps
    its row, and the usage read through it is exactly what metering recorded on that row.
   */
  lemma {:induction false} SlotKeepsItsRowAndUsage(s: State, ops: seq<Op>, p: Period, meter: string)
    requires Sound(s) && LegalRun(s, ops) && InSlot(s.periods, p).Some?
    ensures InSlot(Run(s, ops).periods, p) == InSlot(s.periods, p)
    ensures Run(s, ops).counters == MeteredOnly(s.counters, ops)
    ensures UsageIn(Run(s, ops), p, meter) ==
            Reading(MeteredOnly(s.counters, ops), CounterKey(InSlot(s.periods, p).value, meter))
  {
    if ops != [] {
      var before := Run(s, ops[..|ops| - 1]);
      SlotKeepsItsRowAndUsage(s, ops[..|ops| - 1], p, meter);
      UniquenessAlways(s, ops[..|ops| - 1]);
      var id := InSlot(s.periods, p).value;
      SlotSurvivesStep(before, ops[|ops| - 1], id);
      StepKeepsSound(before, ops[|ops| - 1]);
      hide Legal;
      assert SameSlot(Run(s, ops).periods[id], p);
    }
  }
}
