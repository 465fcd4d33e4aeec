/** Invariants of the reservation lifecycle over every interleaving of its operations. */
module MeteringProperties {
  import opened Prelude
  import opened UsageTables
  import opened Metering

  /** In agreeing tables the counters always hold what an active reservation reserved. */
  lemma {:induction false} AgreementHolds(t: Tables, id: Uuid)
    requires Consistent(t) && id in t.reservations && t.reservations[id].state == Reserved
    ensures CountersHold(t, t.reservations[id].period, t.reservations[id].requested)
  {
    var r := t.reservations[id];
    forall m | m in r.requested
      ensures var k := CounterKey(r.period, m);
              k in t.counters && t.counters[k].used >= 0 && t.counters[k].reserved >= 0 &&
                t.counters[k].reserved >= r.requested[m]
    {
      var k := CounterKey(r.period, m);
      TotalCovers(t.reservations, k);
      assert Share(r, k) == Counter(0, r.requested[m]) && r.requested[m] > 0;
      assert Reading(t.counters, k) == Total(t.reservations, k);
    }
  }

  lemma AgreementIsNonnegative(t: Tables, k: CounterKey)
    requires Consistent(t)
    ensures Reading(t.counters, k).used >= 0 && Reading(t.counters, k).reserved >= 0
  {
    TotalCovers(t.reservations, k);
  }

  /** A well-formed row in place of one for the same request. */
  lemma RowInPlace(t: Tables, counters: map<CounterKey, Counter>, id: Uuid, r': Reservation)
    requires RowsWellFormed(t) && id in t.reservations && RowWellFormed(r')
    requires r'.account == t.reservations[id].account && r'.requestId == t.reservations[id].requestId
    ensures RowsWellFormed(Tables(counters, t.reservations[id := r']))
  {
  }

  /** A row leaves "reserved" and its counters move with it. */
  lemma LeavingReserved(t: Tables, id: Uuid, r': Reservation)
    requires Consistent(t) && id in t.reservations && t.reservations[id].state == Reserved
    requires r'.state != Reserved && RowWellFormed(r')
    requires r'.requested == t.reservations[id].requested && r'.period == t.reservations[id].period
    requires r'.account == t.reservations[id].account && r'.requestId == t.reservations[id].requestId
    ensures var successful := if r'.settled.Some? then r'.settled.value else map[];
            Consistent(Tables(MoveToUsed(t.counters, r'.period, r'.requested, successful), t.reservations[id := r']))
  {
    var r := t.reservations[id];
    var successful := if r'.settled.Some? then r'.settled.value else map[];
    var u := Tables(MoveToUsed(t.counters, r.period, r.requested, successful), t.reservations[id := r']);
    AgreementHolds(t, id);
    RowInPlace(t, u.counters, id, r');
    hide RowsWellFormed;
    forall k ensures Plus(Reading(u.counters, k), Share(r, k)) == Plus(Reading(t.counters, k), Share(r', k)) {
      if k.period == r.period && k.meter in r.requested {
        assert k == CounterKey(r.period, k.meter) && k in t.counters;
      }
    }
    RowChangeKeepsAgreement(t, u, id);
  }

  lemma SettleKeepsAgreement(t: Tables, id: Uuid, q: Quantities, now: Time)
    requires Consistent(t)
    ensures Consistent(Settle(t, id, q, now).tables)
    ensures Settle(t, id, q, now).result != Err(Configuration)
  {
    var n := Normalized(q, true);
    if n.Ok? && id in t.reservations && t.reservations[id].state == Reserved {
      AgreementHolds(t, id);
      if Within(n.value, t.reservations[id].requested) {
        LeavingReserved(t, id, SettledRow(t.reservations[id], n.value, now));
      }
    }
  }

  lemma GivingBackKeepsAgreement(t: Tables, id: Uuid, state: ReservationState, reason: string, now: Time)
    requires Consistent(t) && id in t.reservations && t.reservations[id].state == Reserved
    requires state == Released || state == Expired
    ensures Consistent(GivenBack(t, id, state, reason, now))
  {
    LeavingReserved(t, id, t.reservations[id].(state := state, releaseReason := Some(reason), releasedAt := Some(now)));
  }

  lemma ReleaseKeepsAgreement(t: Tables, id: Uuid, reason: string, now: Time)
    requires Consistent(t)
    ensures Consistent(Release(t, id, reason, now).tables)
    ensures Release(t, id, reason, now).result != Err(Configuration)
  {
    if id in t.reservations && t.reservations[id].state == Reserved {
      AgreementHolds(t, id);
      GivingBackKeepsAgreement(t, id, Released, reason, now);
    }
  }

  /** A batch of distinct stale rows, as the skip-locked query returns it. */
  ghost predicate StaleBatch(t: Tables, batch: seq<Uuid>) {
    && (forall i :: 0 <= i < |batch| ==> batch[i] in t.reservations && t.reservations[batch[i]].state == Reserved)
    && (forall i, j :: 0 <= i < j < |batch| ==> batch[i] != batch[j])
  }

  lemma ExpireOneKeepsAgreement(t: Tables, id: Uuid, now: Time)
    requires Consistent(t)
    ensures Consistent(ExpireOne(t, id, now).tables)
    ensures ExpireOne(t, id, now).result.Ok? <==> id in t.reservations && t.reservations[id].state == Reserved
    ensures ExpireOne(t, id, now).result.Err? ==> ExpireOne(t, id, now) == Outcome(t, Err(Configuration))
    ensures ExpireOne(t, id, now).result.Ok? ==>
              forall x :: x in t.reservations && x != id ==>
                x in ExpireOne(t, id, now).tables.reservations &&
                  ExpireOne(t, id, now).tables.reservations[x] == t.reservations[x]
  {
    if id in t.reservations && t.reservations[id].state == Reserved {
      AgreementHolds(t, id);
      GivingBackKeepsAgreement(t, id, Expired, "stale_reservation_expired", now);
      hide Consistent, CountersHold;
    }
  }

  lemma {:induction false} ExpireKeepsAgreement(t: Tables, batch: seq<Uuid>, now: Time)
    requires Consistent(t)
    ensures Consistent(ExpireAll(t, batch, now).tables)
    ensures StaleBatch(t, batch) ==> ExpireAll(t, batch, now).result == Ok(|batch|)
    decreases |batch|
  {
    hide Consistent, ExpireOne;
    if batch != [] {
      ExpireOneKeepsAgreement(t, batch[0], now);
      var u := ExpireOne(t, batch[0], now);
      if u.result.Ok? {
        ExpireKeepsAgreement(u.tables, batch[1..], now);
        assert StaleBatch(t, batch) ==> StaleBatch(u.tables, batch[1..]);
      }
    }
  }

  lemma EnlargedRow(t: Tables, id: Uuid, meter: string, additional: int, now: Time)
    requires RowsWellFormed(t) && id in t.reservations && t.reservations[id].state == Reserved
    requires meter in t.reservations[id].requested && additional > 0
    ensures RowWellFormed(Enlarged(t, id, meter, additional, now).reservations[id])
  {
  }

  lemma EnlargedShare(t: Tables, id: Uuid, meter: string, additional: int, now: Time, k: CounterKey)
    requires id in t.reservations && t.reservations[id].state == Reserved
    requires meter in t.reservations[id].requested
    requires CountersHold(t, t.reservations[id].period, t.reservations[id].requested)
    ensures var u := Enlarged(t, id, meter, additional, now);
            Plus(Reading(u.counters, k), Share(t.reservations[id], k)) ==
            Plus(Reading(t.counters, k), Share(u.reservations[id], k))
  {
    var r := t.reservations[id];
    AddReservedReading(t.counters, r.period, map[meter := additional], k);
    var u := Enlarged(t, id, meter, additional, now);
    var r' := u.reservations[id];
    assert u.counters == AddReserved(t.counters, r.period, map[meter := additional]);
    assert r'.requested == r.requested[meter := r.requested[meter] + additional];
    if k.period == r.period && k.meter == meter { assert k == CounterKey(r.period, k.meter) && k in t.counters; }
    hide AddReserved, CountersHold, Enlarged;
    assert Amount(r'.requested, k.meter) == Amount(r.requested, k.meter) + Amount(map[meter := additional], k.meter);
  }

  lemma AddReservedReading(counters: map<CounterKey, Counter>, period: Uuid, q: Quantities, k: CounterKey)
    ensures Reading(AddReserved(counters, period, q), k) ==
            if k in counters && k.period == period then Plus(counters[k], Counter(0, Amount(q, k.meter)))
            else Reading(counters, k)
  {
  }

  lemma EnlargedHolds(t: Tables, id: Uuid, meter: string, additional: int, now: Time)
    requires id in t.reservations && meter in t.reservations[id].requested && additional > 0
    requires CountersHold(t, t.reservations[id].period, t.reservations[id].requested)
    ensures var u := Enlarged(t, id, meter, additional, now);
            CountersHold(u, u.reservations[id].period, u.reservations[id].requested)
  {
  }

  lemma EnlargingKeepsAgreement(t: Tables, id: Uuid, meter: string, additional: int, now: Time)
    requires Consistent(t) && id in t.reservations && t.reservations[id].state == Reserved
    requires meter in t.reservations[id].requested && additional > 0
    ensures Consistent(Enlarged(t, id, meter, additional, now))
  {
    var u := Enlarged(t, id, meter, additional, now);
    AgreementHolds(t, id);
    EnlargedRow(t, id, meter, additional, now);
    RowInPlace(t, u.counters, id, u.reservations[id]);
    hide RowsWellFormed, RowWellFormed, Share, Reading, AddReserved, CountersHold;
    forall k ensures Plus(Reading(u.counters, k), Share(t.reservations[id], k)) ==
                     Plus(Reading(t.counters, k), Share(u.reservations[id], k)) {
      EnlargedShare(t, id, meter, additional, now, k);
    }
    RowChangeKeepsAgreement(t, u, id);
  }

  /** Supplementing a meter the reservation holds never meets inconsistent counters. */
  lemma SupplementKeepsAgreement(t: Tables, id: Uuid, meter: string, target: int, limit: int, now: Time)
    requires Consistent(t)
    ensures Consistent(Supplement(t, id, meter, target, limit, now).tables)
    ensures Supplement(t, id, meter, target, limit, now).result == Err(Configuration) ==>
              meter !in t.reservations[id].requested
  {
    hide Consistent, CountersHold, Enlarged, Left, Reading;
    if id in t.reservations && t.reservations[id].state == Reserved {
      AgreementHolds(t, id);
      if meter in t.reservations[id].requested && target > t.reservations[id].requested[meter] {
        EnlargingKeepsAgreement(t, id, meter, target - t.reservations[id].requested[meter], now);
      }
    }
  }

  lemma ToppingKeepsAgreement(t: Tables, id: Uuid, meter: string, actual: int, limit: int, now: Time)
    requires Consistent(t) && id in t.reservations && t.reservations[id].state == Reserved
    requires meter in t.reservations[id].requested
    ensures Consistent(Topped(t, id, meter, actual, limit, now))
  {
    hide Consistent, Enlarged, Extra;
    var extra := Extra(t, id, meter, actual, limit);
    if extra > 0 { EnlargingKeepsAgreement(t, id, meter, extra, now); }
  }

  lemma SettlingAtKeepsAgreement(t: Tables, id: Uuid, q: Quantities, now: Time)
    requires Consistent(t) && id in t.reservations && t.reservations[id].state == Reserved
    requires Normal(q) && Within(q, t.reservations[id].requested)
    ensures Consistent(SettledAt(t, id, q, now))
  {
    assert RowWellFormed(t.reservations[id]);
    LeavingReserved(t, id, SettledRow(t.reservations[id], q, now));
  }

  lemma BilledIsSettleable(t: Tables, id: Uuid, meter: string, actual: int)
    requires RowsWellFormed(t) && id in t.reservations && meter in t.reservations[id].requested && actual >= 0
    ensures var q := OfMeter(meter, Billed(t, id, meter, actual));
            Normal(q) && Within(q, t.reservations[id].requested) && Amount(q, meter) == Billed(t, id, meter, actual)
    ensures 0 <= Billed(t, id, meter, actual) <= actual
  {
    assert RowWellFormed(t.reservations[id]);
  }

  /** Actual usage is split into what is billed and what is not, and only an active row's meter can be missing. */
  lemma SettleWithSupplementKeepsAgreement(t: Tables, id: Uuid, meter: string, actual: int, limit: int, now: Time)
    requires Consistent(t)
    ensures var o := SettleWithSupplement(t, id, meter, actual, limit, now);
            && Consistent(o.tables)
            && (o.result == Err(Configuration) ==> meter !in t.reservations[id].requested)
            && (o.result.Ok? ==> o.result.value.unbilled >= 0 && o.result.value.billed >= 0)
            && (o.result.Ok? && t.reservations[id].state == Reserved ==>
                  && o.result.value.billed + o.result.value.unbilled == actual
                  && o.tables.reservations[id].settled.Some?
                  && Amount(o.tables.reservations[id].settled.value, meter) == o.result.value.billed)
  {
    if id in t.reservations {
      SettledAmountIsNonnegative(t, id, meter);
      if actual >= 0 && t.reservations[id].state == Reserved && meter in t.reservations[id].requested {
        AgreementHolds(t, id);
        ToppingKeepsAgreement(t, id, meter, actual, limit, now);
        var u := Topped(t, id, meter, actual, limit, now);
        assert RowsWellFormed(u);
        BilledIsSettleable(u, id, meter, actual);
        hide Consistent, RowsWellFormed, CountersHold, Topped, Extra, Billed, OfMeter, MoveToUsed;
        SettlingAtKeepsAgreement(u, id, OfMeter(meter, Billed(u, id, meter, actual)), now);
      }
    }
  }

  lemma SettledAmountIsNonnegative(t: Tables, id: Uuid, meter: string)
    requires RowsWellFormed(t) && id in t.reservations
    ensures t.reservations[id].settled.Some? ==> Amount(t.reservations[id].settled.value, meter) >= 0
  {
    assert RowWellFormed(t.reservations[id]);
  }
}
