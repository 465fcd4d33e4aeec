/**
  The reservation lifecycle as atomic steps on the tables (server/billing/metering_service.py over
  db/billing_repository.py), and what every interleaving of them keeps.
 */
module Metering {
  import opened Prelude
  import opened UsageTables

  datatype Failure = ValueError | NotFound | StateError | Conflict | Configuration | AllowanceExceeded

  /** A step's result together with the tables it leaves. */
  datatype Outcome<+T> = Outcome(tables: Tables, result: Result<T, Failure>)

  /**
    Unknown meters and negative amounts are refused. Zero entries are dropped, or refused where a
    positive amount is required.
   */
  function NormalizedWith(q: Quantities, requirePositive: bool, allowEmpty: bool): (r: Result<Quantities, Failure>)
    ensures r.Ok? ==> Normal(r.value) && (r.value == map[] ==> allowEmpty)
    ensures r.Ok? ==> forall m :: Amount(r.value, m) == Amount(q, m)
  {
    if exists m :: m in q && (m !in AllowedMeters() || q[m] < if requirePositive then 1 else 0) then Err(ValueError)
    else
      var kept := map m | m in q && q[m] > 0 :: q[m];
      if kept == map[] && !allowEmpty then Err(ValueError) else Ok(kept)
  }

  function Normalized(q: Quantities, allowEmpty: bool): (r: Result<Quantities, Failure>)
    ensures r.Ok? ==> Normal(r.value) && (r.value == map[] ==> allowEmpty)
  {
    NormalizedWith(q, false, allowEmpty)
  }

  /** Dropping zeros is idempotent, and a mapping that already is normal passes unchanged. */
  lemma NormalizedIsIdempotent(q: Quantities, requirePositive: bool, allowEmpty: bool)
    requires Normal(q) && (q == map[] ==> allowEmpty)
    ensures NormalizedWith(q, requirePositive, allowEmpty) == Ok(q)
  {
    assert (map m | m in q && q[m] > 0 :: q[m]) == q;
  }

  ghost function FindRequest(rs: map<Uuid, Reservation>, account: Uuid, requestId: string): (r: Option<Uuid>)
    ensures r.Some? ==> r.value in rs && rs[r.value].account == account && rs[r.value].requestId == requestId
    ensures r.None? ==> forall id :: id in rs ==> rs[id].account != account || rs[id].requestId != requestId
  {
    if id :| id in rs && rs[id].account == account && rs[id].requestId == requestId then Some(id) else None
  }

  // -- counters ------------------------------------------------------------------------------

  /** The counters of a reservation exist, are sane and still hold what it reserved. */
  predicate CountersHold(t: Tables, period: Uuid, q: Quantities) {
    forall m :: m in q ==>
      var k := CounterKey(period, m);
      k in t.counters && t.counters[k].used >= 0 && t.counters[k].reserved >= 0 && t.counters[k].reserved >= q[m]
  }

  function CreateMissing(counters: map<CounterKey, Counter>, period: Uuid, q: Quantities): map<CounterKey, Counter> {
    var wanted := set m | m in q :: CounterKey(period, m);
    counters + map k | k in wanted - counters.Keys :: Counter(0, 0)
  }

  function AddReserved(counters: map<CounterKey, Counter>, period: Uuid, q: Quantities): map<CounterKey, Counter> {
    map k | k in counters ::
      if k.period == period then Counter(counters[k].used, counters[k].reserved + Amount(q, k.meter)) else counters[k]
  }

  /** Take `requested` out of the reserved amounts and add `successful` to the used ones. */
  function MoveToUsed(counters: map<CounterKey, Counter>, period: Uuid, requested: Quantities, successful: Quantities)
    : map<CounterKey, Counter>
  {
    map k | k in counters ::
      if k.period == period && k.meter in requested then
        Counter(counters[k].used + Amount(successful, k.meter), counters[k].reserved - requested[k.meter])
      else counters[k]
  }

  // -- the service's operations ----------------------------------------------------------------

  /** The subscription a request runs under: its account, usage period and per-meter allowances. */
  datatype Effective = Effective(account: Uuid, period: Uuid, limits: map<string, int>)

  datatype Request = Request(id: string, operation: string, quantities: Quantities)

  predicate Configured(t: Tables, e: Effective, q: Quantities) {
    forall m :: m in q ==>
      Reading(t.counters, CounterKey(e.period, m)).used >= 0 &&
      Reading(t.counters, CounterKey(e.period, m)).reserved >= 0 &&
      m in e.limits && e.limits[m] >= 0
  }

  predicate WithinAllowance(t: Tables, e: Effective, q: Quantities)
    requires Configured(t, e, q)
  {
    forall m :: m in q ==>
      var c := Reading(t.counters, CounterKey(e.period, m));
      q[m] <= e.limits[m] - c.used - c.reserved
  }

  function NewReservation(e: Effective, requestId: string, operation: string, q: Quantities, now: Time): Reservation {
    Reservation(e.account, e.period, requestId, operation, Reserved, q, None, None, now, None, None)
  }

  ghost function Reserve(t: Tables, accounts: set<Uuid>, e: Effective, req: Request, newId: Uuid,
                         now: Time): Outcome<Uuid> {
    var n := Normalized(req.quantities, false);
    if n.Err? then Outcome(t, Err(n.error))
    else
      var existing := FindRequest(t.reservations, e.account, req.id);
      if existing.Some? then
        var r := t.reservations[existing.value];
        Outcome(t, if r.operation == req.operation && r.requested == n.value then Ok(existing.value) else Err(Conflict))
      else if e.account !in accounts then Outcome(t, Err(Configuration))
      else
        var created := t.(counters := CreateMissing(t.counters, e.period, n.value));
        if !Configured(created, e, n.value) then Outcome(created, Err(Configuration))
        else if !WithinAllowance(created, e, n.value) then Outcome(created, Err(AllowanceExceeded))
        else
          Outcome(Tables(AddReserved(created.counters, e.period, n.value),
                         t.reservations[newId := NewReservation(e, req.id, req.operation, n.value, now)]),
                  Ok(newId))
  }

  function Settle(t: Tables, id: Uuid, quantities: Quantities, now: Time): Outcome<Uuid> {
    var n := Normalized(quantities, true);
    if n.Err? then Outcome(t, Err(n.error))
    else if id !in t.reservations then Outcome(t, Err(NotFound))
    else
      var r := t.reservations[id];
      if !Within(n.value, r.requested) then Outcome(t, Err(ValueError))
      else if r.state == Settled then Outcome(t, if r.settled == Some(n.value) then Ok(id) else Err(Conflict))
      else if r.state != Reserved then Outcome(t, Err(StateError))
      else if !CountersHold(t, r.period, r.requested) then Outcome(t, Err(Configuration))
      else
        Outcome(SettledAt(t, id, n.value, now), Ok(id))
  }

  function SettledRow(r: Reservation, q: Quantities, now: Time): Reservation {
    r.(state := Settled, settled := Some(q), settledAt := Some(now), releaseReason := None)
  }

  /** Enlarge an active reservation; the limit is checked against what is left of the allowance. */
  function Supplement(t: Tables, id: Uuid, meter: string, target: int, limit: int, now: Time): Outcome<bool> {
    if target <= 0 then Outcome(t, Err(ValueError))
    else if id !in t.reservations then Outcome(t, Err(NotFound))
    else
      var r := t.reservations[id];
      if r.state != Reserved then Outcome(t, Err(StateError))
      else if target <= Amount(r.requested, meter) then Outcome(t, Ok(true))
      else if !CountersHold(t, r.period, r.requested) || meter !in r.requested then Outcome(t, Err(Configuration))
      else
        var additional := target - r.requested[meter];
        if additional > Left(t, r.period, meter, limit) then Outcome(t, Ok(false))
        else Outcome(Enlarged(t, id, meter, additional, now), Ok(true))
  }

  function Left(t: Tables, period: Uuid, meter: string, limit: int): int {
    var c := Reading(t.counters, CounterKey(period, meter));
    if limit - c.used - c.reserved > 0 then limit - c.used - c.reserved else 0
  }

  function Enlarged(t: Tables, id: Uuid, meter: string, additional: int, now: Time): Tables
    requires id in t.reservations && meter in t.reservations[id].requested
  {
    var r := t.reservations[id];
    Tables(AddReserved(t.counters, r.period, map[meter := additional]),
           t.reservations[id := r.(requested := r.requested[meter := r.requested[meter] + additional],
                                   lastActivity := now)])
  }

  datatype Bill = Bill(billed: int, supplemented: int, unbilled: int)

  function Min(a: int, b: int): int { if a < b then a else b }

  /** What usage beyond the reservation adds to it: all of it, if the allowance has the room, else nothing. */
  function Extra(t: Tables, id: Uuid, meter: string, actual: int, limit: int): (extra: int)
    requires id in t.reservations && meter in t.reservations[id].requested
    ensures extra >= 0
    ensures extra > 0 ==> extra <= Left(t, t.reservations[id].period, meter, limit)
  {
    var reserved := t.reservations[id].requested[meter];
    var additional := if actual > reserved then actual - reserved else 0;
    if additional > 0 && additional <= Left(t, t.reservations[id].period, meter, limit) then additional else 0
  }

  function Topped(t: Tables, id: Uuid, meter: string, actual: int, limit: int, now: Time): (u: Tables)
    requires id in t.reservations && meter in t.reservations[id].requested
    ensures id in u.reservations && meter in u.reservations[id].requested
    ensures u.reservations[id].period == t.reservations[id].period &&
            u.reservations[id].state == t.reservations[id].state
  {
    var extra := Extra(t, id, meter, actual, limit);
    if extra > 0 then Enlarged(t, id, meter, extra, now) else t
  }

  function Billed(t: Tables, id: Uuid, meter: string, actual: int): int
    requires id in t.reservations && meter in t.reservations[id].requested
  {
    Min(actual, t.reservations[id].requested[meter])
  }

  /** A single meter's amount as quantities; nothing of it is no entry. */
  function OfMeter(meter: string, amount: int): Quantities {
    if amount > 0 then map[meter := amount] else map[]
  }

  function SettledAt(t: Tables, id: Uuid, q: Quantities, now: Time): Tables
    requires id in t.reservations
  {
    var r := t.reservations[id];
    Tables(MoveToUsed(t.counters, r.period, r.requested, q), t.reservations[id := SettledRow(r, q, now)])
  }

  /** Settle the actual amount, enlarging the reservation first when the allowance permits. */
  function SettleWithSupplement(t: Tables, id: Uuid, meter: string, actual: int, limit: int, now: Time): Outcome<Bill> {
    if actual < 0 || limit < 0 then Outcome(t, Err(ValueError))
    else if id !in t.reservations then Outcome(t, Err(NotFound))
    else
      var r := t.reservations[id];
      if r.state == Settled then
        var billed := if r.settled.Some? then Amount(r.settled.value, meter) else 0;
        Outcome(t, Ok(Bill(billed, 0, if actual > billed then actual - billed else 0)))
      else if r.state != Reserved then Outcome(t, Err(StateError))
      else if meter !in r.requested || !CountersHold(t, r.period, r.requested) then Outcome(t, Err(Configuration))
      else
        var u := Topped(t, id, meter, actual, limit, now);
        var billed := Billed(u, id, meter, actual);
        Outcome(SettledAt(u, id, OfMeter(meter, billed), now),
                Ok(Bill(billed, Extra(t, id, meter, actual, limit), actual - billed)))
  }

  function Release(t: Tables, id: Uuid, reason: string, now: Time): Outcome<Uuid> {
    if id !in t.reservations then Outcome(t, Err(NotFound))
    else
      var r := t.reservations[id];
      if r.state == Released then Outcome(t, Ok(id))
      else if r.state != Reserved then Outcome(t, Err(StateError))
      else if !CountersHold(t, r.period, r.requested) then Outcome(t, Err(Configuration))
      else Outcome(GivenBack(t, id, Released, reason, now), Ok(id))
  }

  function GivenBack(t: Tables, id: Uuid, state: ReservationState, reason: string, now: Time): Tables
    requires id in t.reservations
  {
    var r := t.reservations[id];
    Tables(MoveToUsed(t.counters, r.period, r.requested, map[]),
           t.reservations[id := r.(state := state, releaseReason := Some(reason), releasedAt := Some(now))])
  }

  /** Expire one row of a batch of stale reservations. */
  function ExpireOne(t: Tables, id: Uuid, now: Time): Outcome<Uuid> {
    if id !in t.reservations || t.reservations[id].state != Reserved ||
       !CountersHold(t, t.reservations[id].period, t.reservations[id].requested) then
      Outcome(t, Err(Configuration))
    else
      Outcome(GivenBack(t, id, Expired, "stale_reservation_expired", now), Ok(id))
  }

  /** The whole batch, in order; the first failure ends it. */
  function ExpireAll(t: Tables, batch: seq<Uuid>, now: Time): Outcome<nat>
    decreases |batch|
  {
    if batch == [] then Outcome(t, Ok(0))
    else
      var first := ExpireOne(t, batch[0], now);
      if first.result.Err? then Outcome(t, Err(first.result.error))
      else
        var rest := ExpireAll(first.tables, batch[1..], now);
        Outcome(rest.tables, if rest.result.Ok? then Ok(rest.result.value + 1) else rest.result)
  }

  /** Refresh the activity time of the rows that are still reserved. */
  function Touch(t: Tables, ids: set<Uuid>, now: Time): Tables {
    t.(reservations := map id | id in t.reservations ::
         if id in ids && t.reservations[id].state == Reserved then t.reservations[id].(lastActivity := now)
         else t.reservations[id])
  }
}
