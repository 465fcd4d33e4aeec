/** What every metering operation answers and writes, in a caller's terms (server/billing/metering_service.py). */
module MeteringOutcomes {
  import opened Prelude
  import opened UsageTables
  import opened Metering
  import opened MeteringProperties
  import opened MeteringRuns

  const CREDITS := "ai_credits"

  /** A mapping no operation accepts: another meter, or less than nothing. */
  predicate Improper(q: Quantities) {
    exists m :: m in q && (m != CREDITS || q[m] < 0)
  }

  /** The amounts of a mapping, with nothing kept of the zeros. */
  predicate SameAmounts(kept: Quantities, q: Quantities) {
    kept.Keys <= {CREDITS} && (CREDITS in kept ==> kept[CREDITS] > 0) && Amount(kept, CREDITS) == Amount(q, CREDITS)
  }

  lemma NormalisingKeepsAmounts(q: Quantities, allowEmpty: bool)
    ensures Normalized(q, allowEmpty) == Err(ValueError) <==> Improper(q) || (!allowEmpty && Amount(q, CREDITS) == 0)
    ensures Normalized(q, allowEmpty).Err? ==> Normalized(q, allowEmpty).error == ValueError
    ensures Normalized(q, allowEmpty).Ok? ==> SameAmounts(Normalized(q, allowEmpty).value, q)
  {
    var kept := map m | m in q && q[m] > 0 :: q[m];
    if !Improper(q) {
      assert CREDITS in kept <==> Amount(q, CREDITS) > 0;
      assert kept == map[] <==> CREDITS !in kept;
    }
  }

  lemma SameAmountsAreEqual(a: Quantities, b: Quantities, q: Quantities)
    requires SameAmounts(a, q) && Normal(b)
    ensures a == b <==> Amount(b, CREDITS) == Amount(q, CREDITS)
  {
    assert forall m :: m in b ==> m == CREDITS;
    if Amount(b, CREDITS) == Amount(q, CREDITS) {
      assert CREDITS in a <==> CREDITS in b;
      assert a.Keys == b.Keys;
    }
  }

  /** What the allowance still has room for; negative when it is overdrawn. */
  function Room(t: Tables, period: Uuid, meter: string, limit: int): int {
    var c := Reading(t.counters, CounterKey(period, meter));
    limit - c.used - c.reserved
  }

  // -- reserving -------------------------------------------------------------------------------------

  predicate KnownRequest(t: Tables, e: Effective, requestId: string, id: Uuid) {
    id in t.reservations && t.reservations[id].account == e.account && t.reservations[id].requestId == requestId
  }

  predicate NewRequest(t: Tables, e: Effective, requestId: string) {
    forall id :: id in t.reservations ==> !KnownRequest(t, e, requestId, id)
  }

  /** A request that comes again is answered with its row if it is the same, and writes nothing. */
  lemma ReserveAgain(t: Tables, accounts: set<Uuid>, e: Effective, req: Request, newId: Uuid, now: Time, id: Uuid)
    requires Consistent(t) && KnownRequest(t, e, req.id, id)
    requires !Improper(req.quantities) && Amount(req.quantities, CREDITS) > 0
    ensures var r := t.reservations[id];
            var same := r.operation == req.operation &&
                        Amount(r.requested, CREDITS) == Amount(req.quantities, CREDITS);
            Reserve(t, accounts, e, req, newId, now) == Outcome(t, if same then Ok(id) else Err(Conflict))
  {
    NormalisingKeepsAmounts(req.quantities, false);
    assert RowWellFormed(t.reservations[id]);
    SameAmountsAreEqual(Normalized(req.quantities, false).value, t.reservations[id].requested, req.quantities);
    assert FindRequest(t.reservations, e.account, req.id) == Some(id);
  }

  /** A new request gets its credits exactly if its account has them to give. */
  lemma ReserveNew(t: Tables, accounts: set<Uuid>, e: Effective, req: Request, newId: Uuid, now: Time)
    requires Consistent(t) && NewRequest(t, e, req.id)
    ensures var wanted := Amount(req.quantities, CREDITS);
            var result := Reserve(t, accounts, e, req, newId, now).result;
            if Improper(req.quantities) || wanted == 0 then result == Err(ValueError)
            else if e.account !in accounts || CREDITS !in e.limits || e.limits[CREDITS] < 0 then
              result == Err(Configuration)
            else if wanted > Room(t, e.period, CREDITS, e.limits[CREDITS]) then result == Err(AllowanceExceeded)
            else result == Ok(newId)
  {
    NormalisingKeepsAmounts(req.quantities, false);
    assert FindRequest(t.reservations, e.account, req.id).None?;
    var n := Normalized(req.quantities, false);
    if n.Ok? {
      assert n.value.Keys == {CREDITS};
      AgreementIsNonnegative(t, CounterKey(e.period, CREDITS));
      var counters := CreateMissing(t.counters, e.period, n.value);
      assert Reading(counters, CounterKey(e.period, CREDITS)) == Reading(t.counters, CounterKey(e.period, CREDITS));
      hide Consistent, Normalized, CreateMissing, Room;
    }
  }

  /** A granted request is the one new row: its account, its period, its amounts, and nothing settled. */
  lemma ReserveWrites(t: Tables, accounts: set<Uuid>, e: Effective, req: Request, newId: Uuid, now: Time)
    requires Consistent(t) && newId !in t.reservations && NewRequest(t, e, req.id)
    ensures var o := Reserve(t, accounts, e, req, newId, now);
            && Consistent(o.tables)
            && (o.result.Err? ==> o.tables.reservations == t.reservations)
            && (o.result.Ok? ==>
                  && newId in o.tables.reservations
                  && o.tables.reservations == t.reservations[newId := o.tables.reservations[newId]]
                  && var r := o.tables.reservations[newId];
                     SameAmounts(r.requested, req.quantities) &&
                     r == Reservation(e.account, e.period, req.id, req.operation, Reserved, r.requested, None, None,
                                      now, None, None))
  {
    NormalisingKeepsAmounts(req.quantities, false);
    assert FindRequest(t.reservations, e.account, req.id).None?;
    ReserveKeepsAgreement(t, accounts, e, req, newId, now);
    hide Consistent, Normalized, CreateMissing, AddReserved, Configured, WithinAllowance, SameAmounts;
  }

  // -- settling --------------------------------------------------------------------------------------

  /** Everything of a row but its state and what its end leaves in it. */
  predicate SameRequest(r: Reservation, s: Reservation) {
    && r.account == s.account && r.period == s.period && r.requestId == s.requestId && r.operation == s.operation
  }

  /** All rows but one are as they were. */
  predicate OnlyRow(t: Tables, u: Tables, id: Uuid) {
    id in u.reservations && u.reservations == t.reservations[id := u.reservations[id]]
  }

  /** The answer to a settlement: refused beyond the reservation, confirmed or contradicted when settled before. */
  lemma SettleAnswers(t: Tables, id: Uuid, q: Quantities, now: Time)
    requires Consistent(t)
    ensures var result := Settle(t, id, q, now).result;
            if Improper(q) then result == Err(ValueError)
            else if id !in t.reservations then result == Err(NotFound)
            else
              var r := t.reservations[id];
              if Amount(q, CREDITS) > Amount(r.requested, CREDITS) then result == Err(ValueError)
              else if r.state == Reserved then result == Ok(id)
              else if r.state != Settled then result == Err(StateError)
              else result == if Amount(q, CREDITS) == Amount(r.settled.value, CREDITS) then Ok(id) else Err(Conflict)
  {
    NormalisingKeepsAmounts(q, true);
    if id in t.reservations && !Improper(q) {
      var r, n := t.reservations[id], Normalized(q, true).value;
      assert RowWellFormed(r);
      assert Within(n, r.requested) <==> Amount(q, CREDITS) <= Amount(r.requested, CREDITS);
      if r.state == Reserved { AgreementHolds(t, id); }
      if r.settled.Some? { SameAmountsAreEqual(n, r.settled.value, q); }
      hide Consistent, Normalized, CountersHold, SameAmounts;
    }
  }

  /** The settled row, and no other, is written. */
  lemma SettleWrites(t: Tables, id: Uuid, q: Quantities, now: Time)
    requires Consistent(t)
    ensures var o := Settle(t, id, q, now);
            && Consistent(o.tables)
            && (o.result.Err? || t.reservations[id].state != Reserved ==> o.tables == t)
            && (o.result.Ok? && t.reservations[id].state == Reserved ==>
                  && OnlyRow(t, o.tables, id)
                  && var r := t.reservations[id];
                     var s := o.tables.reservations[id];
                     && SameRequest(r, s) && s.requested == r.requested && s.lastActivity == r.lastActivity
                     && s.state == Settled && s.settled.Some? && SameAmounts(s.settled.value, q)
                     && s.settledAt == Some(now) && s.releaseReason == None && s.releasedAt == r.releasedAt)
  {
    NormalisingKeepsAmounts(q, true);
    SettleKeepsAgreement(t, id, q, now);
    hide Consistent, Normalized, CountersHold, MoveToUsed, SameAmounts, Within;
  }

  // -- settling what was really used -----------------------------------------------------------------

  /** The reservation covers the usage, or the allowance has room for what is missing. */
  predicate Covered(t: Tables, id: Uuid, meter: string, actual: int, limit: int)
    requires id in t.reservations
  {
    var r := t.reservations[id];
    actual <= Amount(r.requested, meter) || actual - Amount(r.requested, meter) <= Room(t, r.period, meter, limit)
  }

  /** All of covered usage is billed; of other usage exactly what was reserved. */
  lemma SettledBill(t: Tables, id: Uuid, meter: string, actual: int, limit: int, now: Time)
    requires Consistent(t) && id in t.reservations && t.reservations[id].state == Reserved
    requires meter in t.reservations[id].requested && actual >= 0 && limit >= 0
    ensures var reserved := t.reservations[id].requested[meter];
            var result := SettleWithSupplement(t, id, meter, actual, limit, now).result;
            && result.Ok?
            && (Covered(t, id, meter, actual, limit) ==>
                  result.value.billed == actual && result.value.unbilled == 0 &&
                  result.value.supplemented == if actual > reserved then actual - reserved else 0)
            && (!Covered(t, id, meter, actual, limit) ==>
                  result.value.billed == reserved && result.value.unbilled == actual - reserved &&
                  result.value.supplemented == 0)
            && (result.value.unbilled == 0 <==> Covered(t, id, meter, actual, limit))
  {
    AgreementHolds(t, id);
    hide Consistent, CountersHold, AddReserved, MoveToUsed, Reading;
  }

  /** The row settled for its bill, enlarged first by what was supplemented. */
  predicate SettledFor(r: Reservation, s: Reservation, meter: string, bill: Bill, now: Time)
    requires meter in r.requested
  {
    && SameRequest(r, s) && s.state == Settled && s.settledAt == Some(now)
    && s.requested == r.requested[meter := r.requested[meter] + bill.supplemented]
    && s.settled.Some? && Amount(s.settled.value, meter) == bill.billed && s.settled.value.Keys <= {meter}
    && s.releaseReason == None && s.releasedAt == r.releasedAt
    && s.lastActivity == if bill.supplemented > 0 then now else r.lastActivity
  }

  lemma SettledBillWrites(t: Tables, id: Uuid, meter: string, actual: int, limit: int, now: Time)
    requires Consistent(t) && id in t.reservations && t.reservations[id].state == Reserved
    requires meter in t.reservations[id].requested && actual >= 0 && limit >= 0
    ensures var o := SettleWithSupplement(t, id, meter, actual, limit, now);
            && o.result.Ok? && OnlyRow(t, o.tables, id)
            && SettledFor(t.reservations[id], o.tables.reservations[id], meter, o.result.value, now)
  {
    AgreementHolds(t, id);
    assert RowWellFormed(t.reservations[id]);
    hide Consistent, RowWellFormed, RowsWellFormed, CountersHold, Topped, Extra, Billed, SettledAt, OnlyRow, SettledFor,
         OfMeter;
    BilledRow(t, id, meter, actual, limit, now);
  }

  lemma BilledRow(t: Tables, id: Uuid, meter: string, actual: int, limit: int, now: Time)
    requires id in t.reservations && meter in t.reservations[id].requested && actual >= 0
    requires RowWellFormed(t.reservations[id])
    ensures var u := Topped(t, id, meter, actual, limit, now);
            var billed := Billed(u, id, meter, actual);
            var v := SettledAt(u, id, OfMeter(meter, billed), now);
            OnlyRow(t, v, id) &&
            SettledFor(t.reservations[id], v.reservations[id], meter,
                       Bill(billed, Extra(t, id, meter, actual, limit), actual - billed), now)
  {
    var u := Topped(t, id, meter, actual, limit, now);
    var q := OfMeter(meter, Billed(u, id, meter, actual));
    ToppedRow(t, id, meter, actual, limit, now);
    SettledRowAt(u, id, q, now);
    assert t.reservations[id].requested[meter] > 0;
    assert Amount(q, meter) == Billed(u, id, meter, actual);
    hide SettledAt, Topped, Extra, Billed, OnlyRow, RowWellFormed;
    OnlyRowTwice(t, u, SettledAt(u, id, q, now), id);
  }

  lemma OnlyRowTwice(t: Tables, u: Tables, v: Tables, id: Uuid)
    requires OnlyRow(t, u, id) && OnlyRow(u, v, id)
    ensures OnlyRow(t, v, id)
  {
  }

  lemma ToppedRow(t: Tables, id: Uuid, meter: string, actual: int, limit: int, now: Time)
    requires id in t.reservations && meter in t.reservations[id].requested
    ensures var u, extra := Topped(t, id, meter, actual, limit, now), Extra(t, id, meter, actual, limit);
            var r := t.reservations[id];
            && OnlyRow(t, u, id)
            && u.reservations[id] == r.(requested := r.requested[meter := r.requested[meter] + extra],
                                        lastActivity := if extra > 0 then now else r.lastActivity)
  {
    hide AddReserved, Left, Extra;
    var extra, r := Extra(t, id, meter, actual, limit), t.reservations[id];
    if extra == 0 { assert r.requested[meter := r.requested[meter] + extra] == r.requested; }
  }

  lemma SettledRowAt(t: Tables, id: Uuid, q: Quantities, now: Time)
    requires id in t.reservations
    ensures OnlyRow(t, SettledAt(t, id, q, now), id)
    ensures SettledAt(t, id, q, now).reservations[id] ==
            t.reservations[id].(state := Settled, settled := Some(q), settledAt := Some(now), releaseReason := None)
  {
    hide MoveToUsed;
  }

  /** Any other row: unknown, settled already and only read, or closed. */
  lemma SettledBillOtherwise(t: Tables, id: Uuid, meter: string, actual: int, limit: int, now: Time)
    requires Consistent(t)
    requires id in t.reservations && t.reservations[id].state == Reserved ==>
               actual < 0 || limit < 0 || meter !in t.reservations[id].requested
    ensures var o := SettleWithSupplement(t, id, meter, actual, limit, now);
            && o.tables == t
            && if actual < 0 || limit < 0 then o.result == Err(ValueError)
               else if id !in t.reservations then o.result == Err(NotFound)
               else if t.reservations[id].state == Reserved then o.result == Err(Configuration)
               else if t.reservations[id].state != Settled then o.result == Err(StateError)
               else
                 var billed := Amount(t.reservations[id].settled.value, meter);
                 o.result == Ok(Bill(billed, 0, if billed < actual then actual - billed else 0))
  {
    if id in t.reservations { assert RowWellFormed(t.reservations[id]); }
    hide CountersHold;
  }

  // -- supplementing ---------------------------------------------------------------------------------

  /** True exactly if the row holds the target afterwards; only then, and only if it did not before, is it written. */
  lemma SupplementOutcome(t: Tables, id: Uuid, meter: string, target: int, limit: int, now: Time)
    requires Consistent(t) && id in t.reservations && t.reservations[id].state == Reserved
    requires target > 0 && limit >= 0 && meter in t.reservations[id].requested
    ensures var o := Supplement(t, id, meter, target, limit, now);
            var r := t.reservations[id];
            && o.result == Ok(Covered(t, id, meter, target, limit))
            && if target <= r.requested[meter] || !Covered(t, id, meter, target, limit) then o.tables == t
               else OnlyRow(t, o.tables, id) &&
                    o.tables.reservations[id] == r.(requested := r.requested[meter := target], lastActivity := now)
  {
    AgreementHolds(t, id);
    var r := t.reservations[id];
    assert target > r.requested[meter] ==>
      r.requested[meter := r.requested[meter] + (target - r.requested[meter])] == r.requested[meter := target];
    hide Consistent, CountersHold, AddReserved, Reading;
  }

  lemma SupplementOtherwise(t: Tables, id: Uuid, meter: string, target: int, limit: int, now: Time)
    requires Consistent(t)
    requires id in t.reservations && t.reservations[id].state == Reserved ==>
               target <= 0 || meter !in t.reservations[id].requested
    ensures Supplement(t, id, meter, target, limit, now) ==
            Outcome(t, Err(if target <= 0 then ValueError
                           else if id !in t.reservations then NotFound
                           else if t.reservations[id].state != Reserved then StateError
                           else Configuration))
  {
  }

  // -- releasing and expiring ------------------------------------------------------------------------

  /** The row given back: closed with reason and time, and otherwise what it was. */
  predicate GivenUp(r: Reservation, s: Reservation, state: ReservationState, reason: string, now: Time) {
    && SameRequest(r, s) && s.requested == r.requested && s.lastActivity == r.lastActivity
    && s.state == state && s.settled == None && s.settledAt == r.settledAt
    && s.releaseReason == Some(reason) && s.releasedAt == Some(now)
  }

  lemma ReleaseOutcome(t: Tables, id: Uuid, reason: string, now: Time)
    requires Consistent(t)
    ensures var o := Release(t, id, reason, now);
            && Consistent(o.tables)
            && if id !in t.reservations then o == Outcome(t, Err(NotFound))
               else
                 var r := t.reservations[id];
                 if r.state == Reserved then
                   o.result == Ok(id) && OnlyRow(t, o.tables, id) &&
                   GivenUp(r, o.tables.reservations[id], Released, reason, now)
                 else o == Outcome(t, if r.state == Released then Ok(id) else Err(StateError))
  {
    ReleaseKeepsAgreement(t, id, reason, now);
    if id in t.reservations {
      assert RowWellFormed(t.reservations[id]);
      if t.reservations[id].state == Reserved { AgreementHolds(t, id); }
    }
    hide Consistent, CountersHold, MoveToUsed;
  }

  /** Every row of a batch of stale ones is closed, and no other is touched. */
  lemma {:induction false} ExpireOutcome(t: Tables, batch: seq<Uuid>, now: Time)
    requires Consistent(t) && StaleBatch(t, batch)
    ensures var o := ExpireAll(t, batch, now);
            && o.result == Ok(|batch|) && Consistent(o.tables) && o.tables.reservations.Keys == t.reservations.Keys
            && (forall id :: id in t.reservations ==>
                  if id in batch then
                    GivenUp(t.reservations[id], o.tables.reservations[id], Expired, "stale_reservation_expired", now)
                  else o.tables.reservations[id] == t.reservations[id])
    decreases |batch|
  {
    if batch != [] {
      var first, rest := batch[0], batch[1..];
      assert batch == [first] + rest && first !in rest;
      ExpireOneOutcome(t, first, now);
      ExpireOneKeepsAgreement(t, first, now);
      var u := ExpireOne(t, first, now).tables;
      ExpireRestIsStale(t, u, first, rest);
      ExpireFirst(t, batch, now);
      hide Consistent, ExpireOne, GivenUp, ExpireAll, StaleBatch;
      ExpireOutcome(u, rest, now);
      assert forall id :: id in batch <==> id == first || id in rest;
    }
  }

  lemma ExpireFirst(t: Tables, batch: seq<Uuid>, now: Time)
    requires batch != [] && ExpireOne(t, batch[0], now).result.Ok?
    ensures var rest := ExpireAll(ExpireOne(t, batch[0], now).tables, batch[1..], now);
            ExpireAll(t, batch, now) ==
            Outcome(rest.tables, if rest.result.Ok? then Ok(rest.result.value + 1) else rest.result)
  {
  }

  lemma ExpireRestIsStale(t: Tables, u: Tables, first: Uuid, rest: seq<Uuid>)
    requires StaleBatch(t, [first] + rest) && OnlyRow(t, u, first)
    ensures StaleBatch(u, rest)
  {
    var batch := [first] + rest;
    assert batch[0] == first && forall i :: 0 <= i < |rest| ==> rest[i] == batch[i + 1];
  }

  lemma ExpireOneOutcome(t: Tables, id: Uuid, now: Time)
    requires Consistent(t) && id in t.reservations && t.reservations[id].state == Reserved
    ensures var o := ExpireOne(t, id, now);
            && o.result == Ok(id) && OnlyRow(t, o.tables, id)
            && GivenUp(t.reservations[id], o.tables.reservations[id], Expired, "stale_reservation_expired", now)
  {
    AgreementHolds(t, id);
    assert RowWellFormed(t.reservations[id]);
    hide Consistent, CountersHold, MoveToUsed;
  }

  /** A heartbeat writes the activity time of the named rows still reserved, and nothing else. */
  lemma TouchOutcome(t: Tables, ids: set<Uuid>, now: Time, id: Uuid)
    requires id in t.reservations
    ensures var u := Touch(t, ids, now);
            && u.counters == t.counters && u.reservations.Keys == t.reservations.Keys
            && u.reservations[id].lastActivity ==
               (if id in ids && t.reservations[id].state == Reserved then now else t.reservations[id].lastActivity)
            && u.reservations[id].(lastActivity := t.reservations[id].lastActivity) == t.reservations[id]
  {
  }

  // -- tables that do not agree ----------------------------------------------------------------------

  /** A meter of the row whose counter is missing, negative, or no longer holds what the row reserved. */
  predicate OutOfStep(t: Tables, r: Reservation, meter: string) {
    meter in r.requested &&
    var k := CounterKey(r.period, meter);
    k !in t.counters || t.counters[k].used < 0 || t.counters[k].reserved < r.requested[meter]
  }

  /** Whatever ends a reservation raises and writes nothing exactly if one of its counters is out of step. */
  lemma CountersOutOfStep(t: Tables, id: Uuid, q: Quantities, meter: string, actual: int, limit: int, reason: string,
                          now: Time)
    requires id in t.reservations && t.reservations[id].state == Reserved && RowWellFormed(t.reservations[id])
    requires !Improper(q) && Amount(q, CREDITS) <= Amount(t.reservations[id].requested, CREDITS)
    requires meter in t.reservations[id].requested && actual >= 0 && limit >= 0
    ensures var broken := exists m :: OutOfStep(t, t.reservations[id], m);
            && (Settle(t, id, q, now) == Outcome(t, Err(Configuration)) <==> broken)
            && (SettleWithSupplement(t, id, meter, actual, limit, now) == Outcome(t, Err(Configuration)) <==> broken)
            && (Release(t, id, reason, now) == Outcome(t, Err(Configuration)) <==> broken)
            && (ExpireOne(t, id, now) == Outcome(t, Err(Configuration)) <==> broken)
  {
    var r := t.reservations[id];
    NormalisingKeepsAmounts(q, true);
    assert Within(Normalized(q, true).value, r.requested);
    assert CountersHold(t, r.period, r.requested) <==> !exists m :: OutOfStep(t, r, m) by {
      HoldIff(t, r);
    }
    hide CountersHold, OutOfStep, Normalized, Within, MoveToUsed, Topped, Billed, Extra, OfMeter, SettledAt, GivenBack;
  }

  lemma HoldIff(t: Tables, r: Reservation)
    requires RowWellFormed(r)
    ensures CountersHold(t, r.period, r.requested) <==> !exists m :: OutOfStep(t, r, m)
  {
    forall m | m in r.requested ensures r.requested[m] > 0 {
    }
    if !CountersHold(t, r.period, r.requested) {
      var m :| m in r.requested &&
        var k := CounterKey(r.period, m);
        !(k in t.counters && t.counters[k].used >= 0 && t.counters[k].reserved >= 0 &&
          t.counters[k].reserved >= r.requested[m]);
      assert OutOfStep(t, r, m);
    }
  }
}
