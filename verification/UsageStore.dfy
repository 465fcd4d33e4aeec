/**
  The tables updated in place: the row functions of db/billing_repository.py and, on top of them,
  the operations of server/billing/metering_service.py, each proved to be the step Metering describes.
  Meters are visited in any order; the source fixes the sorted one.
 */
module UsageStore {
  import opened Prelude
  import opened UsageTables
  import opened Metering
  import opened MeteringProperties

  function Only(q: Quantities, meters: set<string>): Quantities {
    map m | m in q && m in meters :: q[m]
  }

  method NormalizeQuantities(q: Quantities, requirePositive: bool, allowEmpty: bool)
    returns (r: Result<Quantities, Failure>)
    ensures r == NormalizedWith(q, requirePositive, allowEmpty)
  {
    if q == map[] && !allowEmpty { return Err(ValueError); }
    var normalized: Quantities := map[];
    var todo := q.Keys;
    while todo != {}
      invariant todo <= q.Keys
      invariant forall m :: m in q && m !in todo ==> m in AllowedMeters() && q[m] >= if requirePositive then 1 else 0
      invariant normalized == map m | m in q && m !in todo && q[m] > 0 :: q[m]
    {
      var m :| m in todo;
      if m !in AllowedMeters() || q[m] < (if requirePositive then 1 else 0) { return Err(ValueError); }
      if q[m] != 0 { normalized := normalized[m := q[m]]; }
      todo := todo - {m};
    }
    assert normalized == map m | m in q && q[m] > 0 :: q[m];
    if normalized == map[] && !allowEmpty { return Err(ValueError); }
    r := Ok(normalized);
  }

  function Prefixed(n: nat, o: Outcome<nat>): Outcome<nat> {
    Outcome(o.tables, if o.result.Ok? then Ok(n + o.result.value) else o.result)
  }

  lemma AddNothing(counters: map<CounterKey, Counter>, period: Uuid, q: Quantities, none: set<string>)
    requires none == {}
    ensures AddReserved(counters, period, Only(q, none)) == counters
  {
  }

  /** Adding the meters one at a time. */
  lemma AddOneMeter(counters: map<CounterKey, Counter>, period: Uuid, q: Quantities, done: set<string>, m: string)
    requires m in q && m !in done
    ensures var k := CounterKey(period, m);
            var partly := AddReserved(counters, period, Only(q, done));
            && partly.Keys == counters.Keys
            && (k in counters ==> AddReserved(counters, period, Only(q, done + {m})) ==
                                  partly[k := Counter(partly[k].used, partly[k].reserved + q[m])])
  {
  }

  lemma ExpireNothing(t: Tables, now: Time)
    ensures ExpireAll(t, [], now) == Outcome(t, Ok(0))
  {
  }

  lemma ExpireAllStep(t: Tables, batch: seq<Uuid>, now: Time)
    requires batch != []
    ensures var first := ExpireOne(t, batch[0], now);
            ExpireAll(t, batch, now) ==
            if first.result.Err? then Outcome(t, Err(first.result.error))
            else Prefixed(1, ExpireAll(first.tables, batch[1..], now))
  {
  }

  lemma ReadyToEnlarge(t: Tables, id: Uuid, meter: string, additional: int)
    requires RowsWellFormed(t) && id in t.reservations && t.reservations[id].state == Reserved
    requires meter in t.reservations[id].requested && additional > 0
    requires CountersHold(t, t.reservations[id].period, t.reservations[id].requested)
    ensures var r := t.reservations[id];
            && CounterKey(r.period, meter) in t.counters
            && NormalizedWith(map[meter := additional], true, false) == Ok(map[meter := additional])
            && NormalizedWith(r.requested[meter := r.requested[meter] + additional], true, false) ==
               Ok(r.requested[meter := r.requested[meter] + additional])
  {
    var r := t.reservations[id];
    assert RowWellFormed(r);
    var q := r.requested[meter := r.requested[meter] + additional];
    assert Normal(q) && meter in q;
    hide NormalizedWith, RequestsUnique;
    NormalizedIsIdempotent(map[meter := additional], true, false);
    NormalizedIsIdempotent(q, true, false);
  }

  class Store {
    const accounts: set<Uuid>
    var counters: map<CounterKey, Counter>
    var reservations: map<Uuid, Reservation>

    constructor (accounts: set<Uuid>)
      ensures this.accounts == accounts && State() == Tables(map[], map[])
    {
      this.accounts := accounts;
      counters, reservations := map[], map[];
    }

    ghost function State(): Tables
      reads this
    {
      Tables(counters, reservations)
    }

    // -- counter rows --------------------------------------------------------------------------

    method GetOrCreateUsageCounters(period: Uuid, q: Quantities)
      modifies this`counters
      ensures counters == CreateMissing(old(counters), period, q)
    {
      var todo := q.Keys;
      while todo != {}
        invariant todo <= q.Keys
        invariant forall k :: k in counters <==>
                  k in old(counters) || (k.period == period && k.meter in q && k.meter !in todo)
        invariant forall k :: k in counters ==>
                    counters[k] == if k in old(counters) then old(counters)[k] else Counter(0, 0)
      {
        var m :| m in todo;
        var k := CounterKey(period, m);
        if k !in counters { counters := counters[k := Counter(0, 0)]; }
        todo := todo - {m};
      }
      assert counters == CreateMissing(old(counters), period, q) by {
        forall k ensures k in CreateMissing(old(counters), period, q) <==> k in counters {
          if k.period == period && k.meter in q { assert k == CounterKey(period, k.meter); }
        }
      }
    }

    /** Add to the reserved amounts; a missing counter raises. */
    method ReserveUsageQuantities(period: Uuid, q: Quantities) returns (r: Result<Quantities, Failure>)
      modifies this`counters
      ensures r.Ok? <==>
              NormalizedWith(q, true, false).Ok? && forall m :: m in q ==> CounterKey(period, m) in old(counters)
      ensures r.Ok? ==> counters == AddReserved(old(counters), period, q)
    {
      var n := NormalizeQuantities(q, true, false);
      if n.Err? { return n; }
      var todo := q.Keys;
      AddNothing(counters, period, q, q.Keys - todo);
      hide AddReserved, NormalizedWith;
      while todo != {}
        invariant todo <= q.Keys && counters.Keys == old(counters.Keys)
        invariant forall m :: m in q && m !in todo ==> CounterKey(period, m) in counters
        invariant counters == AddReserved(old(counters), period, Only(q, q.Keys - todo))
      {
        var m :| m in todo;
        var k := CounterKey(period, m);
        if k !in counters { return Err(NotFound); }
        AddOneMeter(old(counters), period, q, q.Keys - todo, m);
        counters := counters[k := Counter(counters[k].used, counters[k].reserved + q[m])];
        assert q.Keys - (todo - {m}) == (q.Keys - todo) + {m};
        todo := todo - {m};
      }
      assert Only(q, q.Keys) == q && q.Keys - todo == q.Keys;
      r := Ok(q);
    }

    /** Move a reservation's amounts; a counter holding less than was reserved raises. */
    method SettleUsageQuantities(period: Uuid, requested: Quantities, successful: Quantities)
      returns (r: Result<Quantities, Failure>)
      modifies this`counters
      ensures var n := Normalized(successful, true);
              r.Ok? <==>
              && NormalizedWith(requested, true, false).Ok? && n.Ok? && Within(n.value, requested)
              && forall m :: m in requested ==>
                   CounterKey(period, m) in old(counters) &&
                     old(counters)[CounterKey(period, m)].reserved >= requested[m]
      ensures r.Ok? ==> counters == MoveToUsed(old(counters), period, requested, Normalized(successful, true).value)
    {
      var n := NormalizeQuantities(requested, true, false);
      if n.Err? { return n; }
      n := NormalizeQuantities(successful, false, true);
      if n.Err? { return n; }
      if exists m :: m in n.value && (m !in requested || n.value[m] > requested[m]) { return Err(ValueError); }
      hide NormalizedWith;
      var moved := MoveCounters(period, requested, n.value);
      r := if moved then Ok(requested) else Err(StateError);
    }

    /** The loop over the meters; it stops at the first counter that cannot give up its amount. */
    method MoveCounters(period: Uuid, requested: Quantities, successful: Quantities) returns (ok: bool)
      modifies this`counters
      ensures ok <==> forall m :: m in requested ==>
                CounterKey(period, m) in old(counters) && old(counters)[CounterKey(period, m)].reserved >= requested[m]
      ensures ok ==> counters == MoveToUsed(old(counters), period, requested, successful)
    {
      ghost var before := counters;
      var todo := requested.Keys;
      while todo != {}
        invariant todo <= requested.Keys && counters.Keys == before.Keys
        invariant forall m :: m in requested && m !in todo ==>
                    CounterKey(period, m) in before && before[CounterKey(period, m)].reserved >= requested[m]
        invariant forall k :: k in counters ==>
                    counters[k] ==
                    if k.period == period && k.meter in requested && k.meter !in todo then
                      Counter(before[k].used + Amount(successful, k.meter), before[k].reserved - requested[k.meter])
                    else before[k]
      {
        var m :| m in todo;
        var k := CounterKey(period, m);
        if k !in counters || counters[k].reserved < requested[m] { return false; }
        counters := counters[k := Counter(counters[k].used + Amount(successful, m),
                                          counters[k].reserved - requested[m])];
        todo := todo - {m};
      }
      ok := true;
    }

    /** Give reserved amounts back without using any. */
    method ReleaseUsageQuantities(period: Uuid, q: Quantities) returns (r: Result<Quantities, Failure>)
      modifies this`counters
      ensures r.Ok? <==>
              && NormalizedWith(q, true, false).Ok?
              && forall m :: m in q ==>
                   CounterKey(period, m) in old(counters) && old(counters)[CounterKey(period, m)].reserved >= q[m]
      ensures r.Ok? ==> counters == MoveToUsed(old(counters), period, q, map[])
    {
      NormalizedIsIdempotent(map[], false, true);
      r := SettleUsageQuantities(period, q, map[]);
    }

    // -- reservation rows ------------------------------------------------------------------------

    method CreateUsageReservation(id: Uuid, row: Reservation)
      requires id !in reservations
      modifies this`reservations
      ensures reservations == old(reservations)[id := row]
    {
      reservations := reservations[id := row];
    }

    /** Enlarge a row while it is still reserved. */
    method UpdateRequestedQuantities(id: Uuid, q: Quantities, now: Time) returns (r: Result<Uuid, Failure>)
      modifies this`reservations
      ensures r.Ok? <==>
              NormalizedWith(q, true, false).Ok? && id in old(reservations) && old(reservations)[id].state == Reserved
      ensures r.Ok? ==>
                reservations == old(reservations)[id := old(reservations)[id].(requested := q, lastActivity := now)]
      ensures r.Err? ==> reservations == old(reservations)
    {
      var n := NormalizeQuantities(q, true, false);
      if n.Err? { return Err(n.error); }
      if id !in reservations || reservations[id].state != Reserved { return Err(StateError); }
      assert n.value == q;
      reservations := reservations[id := reservations[id].(requested := n.value, lastActivity := now)];
      r := Ok(id);
    }

    /** The settlement of the row found by account and request id; settled rows only confirm. */
    method SettleUsageReservation(account: Uuid, requestId: string, quantities: Quantities, now: Time)
      returns (r: Result<Uuid, Failure>)
      requires RequestsUnique(reservations)
      modifies this`reservations
      ensures var n := Normalized(quantities, true);
              var found := FindRequest(old(reservations), account, requestId);
              if n.Err? then r == Err(n.error) && reservations == old(reservations)
              else if found.None? then r == Err(NotFound) && reservations == old(reservations)
              else
                var id := found.value;
                var row := old(reservations)[id];
                if !Within(n.value, row.requested) then r == Err(ValueError) && reservations == old(reservations)
                else if row.state == Settled then
                  reservations == old(reservations) &&
                    r == if row.settled == Some(n.value) then Ok(id) else Err(Conflict)
                else if row.state != Reserved then r == Err(StateError) && reservations == old(reservations)
                else r == Ok(id) && reservations == old(reservations)[id := SettledRow(row, n.value, now)]
    {
      var n := NormalizeQuantities(quantities, false, true);
      if n.Err? { return Err(n.error); }
      hide NormalizedWith;
      var q := n.value;
      if id :| id in reservations && reservations[id].account == account && reservations[id].requestId == requestId {
        assert FindRequest(reservations, account, requestId) == Some(id);
        var row := reservations[id];
        if exists m :: m in q && (m !in row.requested || q[m] > row.requested[m]) { return Err(ValueError); }
        if row.state == Settled { return if row.settled == Some(q) then Ok(id) else Err(Conflict); }
        if row.state != Reserved { return Err(StateError); }
        reservations := reservations[id := SettledRow(row, q, now)];
        r := Ok(id);
      } else {
        r := Err(NotFound);
      }
    }

    method ReleaseUsageReservation(account: Uuid, requestId: string, reason: string, now: Time)
      returns (r: Result<Uuid, Failure>)
      requires RequestsUnique(reservations)
      modifies this`reservations
      ensures var found := FindRequest(old(reservations), account, requestId);
              if found.None? then r == Err(NotFound) && reservations == old(reservations)
              else
                var id := found.value;
                var row := old(reservations)[id];
                if row.state == Released then r == Ok(id) && reservations == old(reservations)
                else if row.state != Reserved then r == Err(StateError) && reservations == old(reservations)
                else r == Ok(id) && reservations ==
                     old(reservations)[id := row.(state := Released, releaseReason := Some(reason),
                                                  releasedAt := Some(now))]
    {
      if id :| id in reservations && reservations[id].account == account && reservations[id].requestId == requestId {
        assert FindRequest(reservations, account, requestId) == Some(id);
        var row := reservations[id];
        if row.state == Released { return Ok(id); }
        if row.state != Reserved { return Err(StateError); }
        reservations := reservations[id := row.(state := Released, releaseReason := Some(reason),
                                                releasedAt := Some(now))];
        r := Ok(id);
      } else {
        r := Err(NotFound);
      }
    }

    method ExpireUsageReservation(id: Uuid, reason: string, now: Time) returns (r: Result<Uuid, Failure>)
      modifies this`reservations
      ensures r.Ok? <==> id in old(reservations) && old(reservations)[id].state == Reserved
      ensures r.Ok? ==>
                reservations ==
                old(reservations)[id := old(reservations)[id].(state := Expired, releaseReason := Some(reason),
                                                               releasedAt := Some(now))]
      ensures r.Err? ==> reservations == old(reservations)
    {
      if id !in reservations || reservations[id].state != Reserved { return Err(StateError); }
      reservations := reservations[id := reservations[id].(state := Expired, releaseReason := Some(reason),
                                                           releasedAt := Some(now))];
      r := Ok(id);
    }

    /** Heartbeat: only rows still reserved are refreshed, each once; returns how many. */
    method TouchUsageReservationActivity(ids: set<Uuid>, now: Time) returns (touched: nat)
      modifies this`reservations
      ensures State() == Touch(old(State()), ids, now)
      ensures touched == |set id | id in ids && id in old(reservations) && old(reservations)[id].state == Reserved|
    {
      var active := set id | id in ids && id in reservations && reservations[id].state == Reserved;
      touched := |active|;
      reservations := map id | id in reservations ::
        if id in active then reservations[id].(lastActivity := now) else reservations[id];
      assert State() == Touch(old(State()), ids, now);
    }

    // -- the metering service ----------------------------------------------------------------------

    method ReserveUsage(e: Effective, req: Request, newId: Uuid, now: Time) returns (r: Result<Uuid, Failure>)
      requires RowsWellFormed(State()) && newId !in reservations
      modifies this
      ensures Outcome(State(), r) == Reserve(old(State()), accounts, e, req, newId, now)
    {
      var n := NormalizeQuantities(req.quantities, false, false);
      if n.Err? { return Err(n.error); }
      var q := n.value;
      if id :| id in reservations && reservations[id].account == e.account && reservations[id].requestId == req.id {
        assert FindRequest(reservations, e.account, req.id) == Some(id);
        var same := reservations[id].operation == req.operation && reservations[id].requested == q;
        return if same then Ok(id) else Err(Conflict);
      }
      assert FindRequest(reservations, e.account, req.id).None?;
      if e.account !in accounts { return Err(Configuration); }
      GetOrCreateUsageCounters(e.period, q);
      if !Configured(Tables(counters, reservations), e, q) { return Err(Configuration); }
      if !WithinAllowance(Tables(counters, reservations), e, q) { return Err(AllowanceExceeded); }
      NormalizedIsIdempotent(q, true, false);
      var reserved := ReserveUsageQuantities(e.period, q);
      assert reserved.Ok?;
      CreateUsageReservation(newId, NewReservation(e, req.id, req.operation, q, now));
      r := Ok(newId);
    }

    method SettleUsage(id: Uuid, quantities: Quantities, now: Time) returns (r: Result<Uuid, Failure>)
      requires RowsWellFormed(State())
      modifies this
      ensures Outcome(State(), r) == Settle(old(State()), id, quantities, now)
    {
      var n := NormalizeQuantities(quantities, false, true);
      if n.Err? { return Err(n.error); }
      if id !in reservations { return Err(NotFound); }
      var row := reservations[id];
      if !Within(n.value, row.requested) { return Err(ValueError); }
      if row.state == Settled { return if row.settled == Some(n.value) then Ok(id) else Err(Conflict); }
      if row.state != Reserved { return Err(StateError); }
      if !CountersHold(Tables(counters, reservations), row.period, row.requested) { return Err(Configuration); }
      assert RowWellFormed(row);
      NormalizedIsIdempotent(row.requested, true, false);
      NormalizedIsIdempotent(n.value, false, true);
      var moved := SettleUsageQuantities(row.period, row.requested, n.value);
      assert FindRequest(reservations, row.account, row.requestId) == Some(id);
      r := SettleUsageReservation(row.account, row.requestId, n.value, now);
    }

    method ReleaseUsage(id: Uuid, reason: string, now: Time) returns (r: Result<Uuid, Failure>)
      requires RowsWellFormed(State())
      modifies this
      ensures Outcome(State(), r) == Release(old(State()), id, reason, now)
    {
      if id !in reservations { return Err(NotFound); }
      var row := reservations[id];
      if row.state == Released { return Ok(id); }
      if row.state != Reserved { return Err(StateError); }
      if !CountersHold(Tables(counters, reservations), row.period, row.requested) { return Err(Configuration); }
      assert RowWellFormed(row);
      NormalizedIsIdempotent(row.requested, true, false);
      var moved := ReleaseUsageQuantities(row.period, row.requested);
      assert FindRequest(reservations, row.account, row.requestId) == Some(id);
      r := ReleaseUsageReservation(row.account, row.requestId, reason, now);
    }

    method SupplementUsageReservation(id: Uuid, meter: string, target: int, limit: int, now: Time)
      returns (r: Result<bool, Failure>)
      requires RowsWellFormed(State())
      modifies this
      ensures Outcome(State(), r) == Supplement(old(State()), id, meter, target, limit, now)
    {
      if target <= 0 { return Err(ValueError); }
      if id !in reservations { return Err(NotFound); }
      var row := reservations[id];
      if row.state != Reserved { return Err(StateError); }
      var current := Amount(row.requested, meter);
      if target <= current { return Ok(true); }
      if !CountersHold(Tables(counters, reservations), row.period, row.requested) ||
        meter !in row.requested { return Err(Configuration); }
      if target - current > Left(Tables(counters, reservations), row.period, meter, limit) { return Ok(false); }
      Enlarge(id, meter, target - current, now);
      r := Ok(true);
    }

    /** Add to the counter and to the row: the pair of writes behind every supplement. */
    method Enlarge(id: Uuid, meter: string, additional: int, now: Time)
      requires RowsWellFormed(State()) && id in reservations && reservations[id].state == Reserved
      requires meter in reservations[id].requested && additional > 0
      requires CountersHold(State(), reservations[id].period, reservations[id].requested)
      modifies this
      ensures State() == Enlarged(old(State()), id, meter, additional, now)
    {
      hide RowsWellFormed, CountersHold, NormalizedWith, AddReserved;
      var row := reservations[id];
      ReadyToEnlarge(State(), id, meter, additional);
      var reserved := ReserveUsageQuantities(row.period, map[meter := additional]);
      var updated := UpdateRequestedQuantities(id, row.requested[meter := row.requested[meter] + additional], now);
    }

    method SettleUsageWithSupplement(id: Uuid, meter: string, actual: int, limit: int, now: Time)
      returns (r: Result<Bill, Failure>)
      requires RowsWellFormed(State())
      modifies this
      ensures Outcome(State(), r) == SettleWithSupplement(old(State()), id, meter, actual, limit, now)
    {
      hide RowsWellFormed, CountersHold, AddReserved, MoveToUsed, Left, SettledRow;
      if actual < 0 || limit < 0 { return Err(ValueError); }
      if id !in reservations { return Err(NotFound); }
      var row := reservations[id];
      if row.state == Settled {
        var settled := if row.settled.Some? then Amount(row.settled.value, meter) else 0;
        return Ok(Bill(settled, 0, if actual > settled then actual - settled else 0));
      }
      if row.state != Reserved { return Err(StateError); }
      if meter !in row.requested ||
        !CountersHold(Tables(counters, reservations), row.period, row.requested) { return Err(Configuration); }
      var additional := if actual > row.requested[meter] then actual - row.requested[meter] else 0;
      var supplemented := 0;
      ghost var t := State();
      if additional > 0 && additional <= Left(Tables(counters, reservations), row.period, meter, limit) {
        EnlargedRow(t, id, meter, additional, now);
        EnlargedHolds(t, id, meter, additional, now);
        Enlarge(id, meter, additional, now);
        supplemented := additional;
        RowInPlace(t, counters, id, reservations[id]);
      }
      r := SettleBilled(id, meter, actual, supplemented, now);
    }

    /** Settle at most what is reserved of the meter. */
    method SettleBilled(id: Uuid, meter: string, actual: int, supplemented: int, now: Time)
      returns (r: Result<Bill, Failure>)
      requires RowsWellFormed(State()) && id in reservations && reservations[id].state == Reserved
      requires meter in reservations[id].requested && actual >= 0
      requires CountersHold(State(), reservations[id].period, reservations[id].requested)
      modifies this
      ensures var row := old(reservations)[id];
              var billed := Min(actual, row.requested[meter]);
              var successful := if billed > 0 then map[meter := billed] else map[];
              && r == Ok(Bill(billed, supplemented, actual - billed))
              && counters == MoveToUsed(old(counters), row.period, row.requested, successful)
              && reservations == old(reservations)[id := SettledRow(row, successful, now)]
    {
      var row := reservations[id];
      assert RowWellFormed(row);
      var billed := Min(actual, row.requested[meter]);
      var successful: Quantities := if billed > 0 then map[meter := billed] else map[];
      NormalizedIsIdempotent(row.requested, true, false);
      NormalizedIsIdempotent(successful, false, true);
      var moved := SettleUsageQuantities(row.period, row.requested, successful);
      assert FindRequest(reservations, row.account, row.requestId) == Some(id);
      var settled := SettleUsageReservation(row.account, row.requestId, successful, now);
      r := Ok(Bill(billed, supplemented, actual - billed));
    }

    method GiveBackExpired(id: Uuid, now: Time)
      requires RowsWellFormed(State()) && id in reservations && reservations[id].state == Reserved
      requires CountersHold(State(), reservations[id].period, reservations[id].requested)
      modifies this
      ensures State() == GivenBack(old(State()), id, Expired, "stale_reservation_expired", now)
    {
      var row := reservations[id];
      assert RowWellFormed(row);
      NormalizedIsIdempotent(row.requested, true, false);
      var moved := ReleaseUsageQuantities(row.period, row.requested);
      var done := ExpireUsageReservation(id, "stale_reservation_expired", now);
    }

    method ExpireNext(id: Uuid, now: Time) returns (r: Result<Uuid, Failure>)
      requires RowsWellFormed(State())
      modifies this
      ensures Outcome(State(), r) == ExpireOne(old(State()), id, now) && RowsWellFormed(State())
      ensures r.Err? ==> State() == old(State())
    {
      if id !in reservations || reservations[id].state != Reserved { return Err(Configuration); }
      if !CountersHold(Tables(counters, reservations), reservations[id].period, reservations[id].requested) {
        return Err(Configuration);
      }
      assert RowWellFormed(reservations[id]);
      ghost var next := GivenBack(State(), id, Expired, "stale_reservation_expired", now);
      RowInPlace(State(), next.counters, id, next.reservations[id]);
      hide RowsWellFormed, CountersHold, GivenBack;
      GiveBackExpired(id, now);
      r := Ok(id);
    }

    /** The loop over one batch of stale rows; an error leaves it half done for the caller to roll back. */
    method ExpireStaleReservations(batch: seq<Uuid>, now: Time) returns (r: Result<nat, Failure>)
      requires RowsWellFormed(State())
      modifies this
      ensures Outcome(State(), r) == ExpireAll(old(State()), batch, now)
    {
      hide RowsWellFormed, ExpireOne, ExpireAll;
      ghost var start := State();
      ghost var rest := batch;
      var expired := 0;
      while expired < |batch|
        invariant expired + |rest| == |batch| && rest == batch[expired..]
        invariant RowsWellFormed(State())
        invariant ExpireAll(start, batch, now) == Prefixed(expired, ExpireAll(State(), rest, now))
      {
        ExpireAllStep(State(), rest, now);
        var one := ExpireNext(batch[expired], now);
        if one.Err? { return Err(one.error); }
        rest := rest[1..];
        expired := expired + 1;
      }
      ExpireNothing(State(), now);
      r := Ok(expired);
    }
  }
}
