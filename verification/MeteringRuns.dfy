/** Whole runs: any sequence of metering operations, by any number of interleaved workers. */
module MeteringRuns {
  import opened Prelude
  import opened UsageTables
  import opened Metering
  import opened MeteringProperties

  /** One atomic transaction. A reservation is inserted under an id nobody else has. */
  datatype Op =
    | DoReserve(e: Effective, req: Request, newId: Uuid, now: Time)
    | DoSettle(id: Uuid, quantities: Quantities, now: Time)
    | DoSettleWithSupplement(id: Uuid, meter: string, actual: int, limit: int, now: Time)
    | DoSupplement(id: Uuid, meter: string, target: int, limit: int, now: Time)
    | DoRelease(id: Uuid, reason: string, now: Time)
    | DoExpire(batch: seq<Uuid>, now: Time)
    | DoTouch(ids: set<Uuid>, now: Time)

  ghost function Step(t: Tables, accounts: set<Uuid>, op: Op): Tables {
    match op
    case DoReserve(e, req, newId, now) => Reserve(t, accounts, e, req, newId, now).tables
    case DoSettle(id, q, now) => Settle(t, id, q, now).tables
    case DoSettleWithSupplement(id, meter, actual, limit, now) =>
      SettleWithSupplement(t, id, meter, actual, limit, now).tables
    case DoSupplement(id, meter, target, limit, now) => Supplement(t, id, meter, target, limit, now).tables
    case DoRelease(id, reason, now) => Release(t, id, reason, now).tables
    case DoExpire(batch, now) => ExpireAll(t, batch, now).tables
    case DoTouch(ids, now) => Touch(t, ids, now)
  }

  predicate Legal(t: Tables, op: Op) {
    op.DoReserve? ==> op.newId !in t.reservations
  }

  ghost function Run(t: Tables, accounts: set<Uuid>, ops: seq<Op>): Tables {
    if ops == [] then t else Step(Run(t, accounts, ops[..|ops| - 1]), accounts, ops[|ops| - 1])
  }

  ghost predicate LegalRun(t: Tables, accounts: set<Uuid>, ops: seq<Op>) {
    ops != [] ==>
      var before := ops[..|ops| - 1];
      LegalRun(t, accounts, before) && Legal(Run(t, accounts, before), ops[|ops| - 1])
  }

  // -- agreement ---------------------------------------------------------------------------------

  lemma CreatingCountersKeepsAgreement(t: Tables, period: Uuid, q: Quantities)
    requires Consistent(t)
    ensures Consistent(t.(counters := CreateMissing(t.counters, period, q)))
  {
  }

  lemma NewRowIsWellFormed(t: Tables, counters: map<CounterKey, Counter>, id: Uuid, r: Reservation)
    requires RowsWellFormed(t) && id !in t.reservations && RowWellFormed(r)
    requires FindRequest(t.reservations, r.account, r.requestId).None?
    ensures RowsWellFormed(Tables(counters, t.reservations[id := r]))
  {
  }

  lemma ReserveKeepsAgreement(t: Tables, accounts: set<Uuid>, e: Effective, req: Request, newId: Uuid, now: Time)
    requires Consistent(t) && newId !in t.reservations
    ensures Consistent(Reserve(t, accounts, e, req, newId, now).tables)
  {
    var n := Normalized(req.quantities, false);
    var o := Reserve(t, accounts, e, req, newId, now);
    if n.Ok? && o.tables != t {
      var created := t.(counters := CreateMissing(t.counters, e.period, n.value));
      CreatingCountersKeepsAgreement(t, e.period, n.value);
      if o.tables != created {
        var r := NewReservation(e, req.id, req.operation, n.value, now);
        assert o.tables == Tables(AddReserved(created.counters, e.period, n.value), t.reservations[newId := r]);
        NewRowIsWellFormed(created, o.tables.counters, newId, r);
        hide RowsWellFormed, RowWellFormed, Reserve, AddReserved, FindRequest;
        forall k
          ensures Plus(Reading(o.tables.counters, k), Counter(0, 0)) == Plus(Reading(created.counters, k), Share(r, k))
        {
          AddReservedReading(created.counters, e.period, n.value, k);
          if k.period == e.period && k.meter in n.value {
            assert k == CounterKey(e.period, k.meter) && k in created.counters;
          }
        }
        RowChangeKeepsAgreement(created, o.tables, newId);
      }
    }
  }

  lemma {:induction false} TouchKeepsTotals(rs: map<Uuid, Reservation>, us: map<Uuid, Reservation>, k: CounterKey)
    requires rs.Keys == us.Keys
    requires forall id :: id in rs ==> Share(us[id], k) == Share(rs[id], k)
    ensures Total(us, k) == Total(rs, k)
    decreases |rs|
  {
    hide Share;
    if rs != map[] {
      var id := Pick(rs);
      assert id in us;
      TotalWithout(us, id, k);
      assert (us - {id}).Keys == (rs - {id}).Keys;
      assert forall x :: x in rs - {id} ==> (rs - {id})[x] == rs[x] && (us - {id})[x] == us[x];
      TouchKeepsTotals(rs - {id}, us - {id}, k);
    } else {
      assert us == map[];
    }
  }

  lemma TouchKeepsAgreement(t: Tables, ids: set<Uuid>, now: Time)
    requires Consistent(t)
    ensures Consistent(Touch(t, ids, now))
  {
    var u := Touch(t, ids, now);
    assert RowsWellFormed(u);
    forall k ensures Reading(u.counters, k) == Total(u.reservations, k) {
      TouchKeepsTotals(t.reservations, u.reservations, k);
    }
  }

  lemma StepKeepsAgreement(t: Tables, accounts: set<Uuid>, op: Op)
    requires Consistent(t) && Legal(t, op)
    ensures Consistent(Step(t, accounts, op))
  {
    hide Consistent;
    match op
    case DoReserve(e, req, newId, now) => ReserveKeepsAgreement(t, accounts, e, req, newId, now);
    case DoSettle(id, q, now) => SettleKeepsAgreement(t, id, q, now);
    case DoSettleWithSupplement(id, meter, actual, limit, now) =>
      SettleWithSupplementKeepsAgreement(t, id, meter, actual, limit, now);
    case DoSupplement(id, meter, target, limit, now) => SupplementKeepsAgreement(t, id, meter, target, limit, now);
    case DoRelease(id, reason, now) => ReleaseKeepsAgreement(t, id, reason, now);
    case DoExpire(batch, now) => ExpireKeepsAgreement(t, batch, now);
    case DoTouch(ids, now) => TouchKeepsAgreement(t, ids, now);
  }

  /** In every reachable state each counter is the sum over the reservations, for every period and meter. */
  lemma {:induction false} CountersAlwaysAgree(accounts: set<Uuid>, ops: seq<Op>)
    requires LegalRun(Tables(map[], map[]), accounts, ops)
    ensures Consistent(Run(Tables(map[], map[]), accounts, ops))
  {
    if ops != [] {
      CountersAlwaysAgree(accounts, ops[..|ops| - 1]);
      StepKeepsAgreement(Run(Tables(map[], map[]), accounts, ops[..|ops| - 1]), accounts, ops[|ops| - 1]);
    }
  }

  // -- terminal states -----------------------------------------------------------------------------

  lemma {:induction false} ExpireLeavesTerminalRows(t: Tables, batch: seq<Uuid>, now: Time, id: Uuid)
    requires id in t.reservations && t.reservations[id].state != Reserved
    ensures id in ExpireAll(t, batch, now).tables.reservations
    ensures ExpireAll(t, batch, now).tables.reservations[id] == t.reservations[id]
    decreases |batch|
  {
    if batch != [] && ExpireOne(t, batch[0], now).result.Ok? {
      ExpireLeavesTerminalRows(ExpireOne(t, batch[0], now).tables, batch[1..], now, id);
    }
  }

  /** Settled, released and expired rows are never written again, not even their activity time. */
  lemma StepLeavesTerminalRows(t: Tables, accounts: set<Uuid>, op: Op, id: Uuid)
    requires Legal(t, op) && id in t.reservations && t.reservations[id].state != Reserved
    ensures id in Step(t, accounts, op).reservations
    ensures Step(t, accounts, op).reservations[id] == t.reservations[id]
  {
    if op.DoExpire? { ExpireLeavesTerminalRows(t, op.batch, op.now, id); }
  }

  lemma {:induction false} TerminalRowsAreFinal(t: Tables, accounts: set<Uuid>, ops: seq<Op>, id: Uuid)
    requires LegalRun(t, accounts, ops)
    requires id in t.reservations && t.reservations[id].state != Reserved
    ensures id in Run(t, accounts, ops).reservations
    ensures Run(t, accounts, ops).reservations[id] == t.reservations[id]
  {
    if ops != [] {
      TerminalRowsAreFinal(t, accounts, ops[..|ops| - 1], id);
      StepLeavesTerminalRows(Run(t, accounts, ops[..|ops| - 1]), accounts, ops[|ops| - 1], id);
    }
  }

  /** A settlement repeated any time later answers as before and writes nothing; different amounts are refused. */
  lemma SettlementIsIdempotent(t: Tables, accounts: set<Uuid>, id: Uuid, q: Quantities, now: Time, ops: seq<Op>,
                               again: Quantities, later: Time)
    requires Settle(t, id, q, now).result.Ok?
    requires LegalRun(Settle(t, id, q, now).tables, accounts, ops)
    requires Normalized(again, true).Ok? && Within(Normalized(again, true).value, t.reservations[id].requested)
    ensures var u := Run(Settle(t, id, q, now).tables, accounts, ops);
            Settle(u, id, again, later) ==
            Outcome(u, if Normalized(again, true) == Normalized(q, true) then Ok(id) else Err(Conflict))
  {
    TerminalRowsAreFinal(Settle(t, id, q, now).tables, accounts, ops, id);
  }

  /** A release repeated any time later answers as before and writes nothing. */
  lemma ReleaseIsIdempotent(t: Tables, accounts: set<Uuid>, id: Uuid, reason: string, now: Time, ops: seq<Op>,
                            again: string, later: Time)
    requires Release(t, id, reason, now).result.Ok?
    requires LegalRun(Release(t, id, reason, now).tables, accounts, ops)
    ensures var u := Run(Release(t, id, reason, now).tables, accounts, ops);
            Release(u, id, again, later) == Outcome(u, Ok(id))
  {
    TerminalRowsAreFinal(Release(t, id, reason, now).tables, accounts, ops, id);
  }

  // -- allowances ----------------------------------------------------------------------------------

  /** What a counter has committed: finally used plus still reserved. */
  function Committed(t: Tables, k: CounterKey): int {
    Reading(t.counters, k).used + Reading(t.counters, k).reserved
  }

  /** Any allowance this operation is checked against for counter `k` is at most `limit`. */
  predicate LimitedBy(t: Tables, op: Op, k: CounterKey, limit: int) {
    match op
    case DoReserve(e, _, _, _) => e.period == k.period && k.meter in e.limits ==> e.limits[k.meter] <= limit
    case DoSettleWithSupplement(id, meter, _, l, _) =>
      id in t.reservations && t.reservations[id].period == k.period && meter == k.meter ==> l <= limit
    case DoSupplement(id, meter, _, l, _) =>
      id in t.reservations && t.reservations[id].period == k.period && meter == k.meter ==> l <= limit
    case _ => true
  }

  lemma MoveToUsedReading(counters: map<CounterKey, Counter>, period: Uuid, requested: Quantities,
                          successful: Quantities, k: CounterKey)
    requires Normal(requested) && Normal(successful) && Within(successful, requested)
    ensures var before, after := Reading(counters, k), Reading(MoveToUsed(counters, period, requested, successful), k);
            after.used >= before.used && after.used + after.reserved <= before.used + before.reserved
  {
  }

  lemma GivenBackCommits(t: Tables, id: Uuid, state: ReservationState, reason: string, now: Time, k: CounterKey)
    requires Consistent(t) && id in t.reservations
    ensures Committed(GivenBack(t, id, state, reason, now), k) <= Committed(t, k)
    ensures Reading(GivenBack(t, id, state, reason, now).counters, k).used >= Reading(t.counters, k).used
  {
  }

  lemma ReleaseCommits(t: Tables, id: Uuid, reason: string, now: Time, k: CounterKey)
    requires Consistent(t)
    ensures Committed(Release(t, id, reason, now).tables, k) <= Committed(t, k)
    ensures Reading(Release(t, id, reason, now).tables.counters, k).used >= Reading(t.counters, k).used
  {
    if id in t.reservations { GivenBackCommits(t, id, Released, reason, now, k); }
  }

  lemma {:induction false} ExpireCommits(t: Tables, batch: seq<Uuid>, now: Time, k: CounterKey)
    requires Consistent(t)
    ensures Committed(ExpireAll(t, batch, now).tables, k) <= Committed(t, k)
    ensures Reading(ExpireAll(t, batch, now).tables.counters, k).used >= Reading(t.counters, k).used
    decreases |batch|
  {
    if batch != [] && ExpireOne(t, batch[0], now).result.Ok? {
      GivingBackKeepsAgreement(t, batch[0], Expired, "stale_reservation_expired", now);
      GivenBackCommits(t, batch[0], Expired, "stale_reservation_expired", now, k);
      ExpireCommits(ExpireOne(t, batch[0], now).tables, batch[1..], now, k);
    }
  }

  lemma ReserveCommits(t: Tables, accounts: set<Uuid>, e: Effective, req: Request, newId: Uuid, now: Time,
                       k: CounterKey, limit: int)
    requires Consistent(t) && newId !in t.reservations && Committed(t, k) <= limit
    requires e.period == k.period && k.meter in e.limits ==> e.limits[k.meter] <= limit
    ensures Committed(Reserve(t, accounts, e, req, newId, now).tables, k) <= limit
    ensures Reading(Reserve(t, accounts, e, req, newId, now).tables.counters, k).used >= Reading(t.counters, k).used
  {
    var n := Normalized(req.quantities, false);
    var o := Reserve(t, accounts, e, req, newId, now);
    if n.Ok? && o.tables != t {
      var created := t.(counters := CreateMissing(t.counters, e.period, n.value));
      assert Reading(created.counters, k) == Reading(t.counters, k);
      if o.tables != created {
        AddReservedReading(created.counters, e.period, n.value, k);
        if k.period == e.period && k.meter in n.value {
          assert k == CounterKey(e.period, k.meter);
          assert n.value[k.meter] <= e.limits[k.meter] - Committed(created, k);
        }
      }
    }
  }

  lemma EnlargedCommits(t: Tables, id: Uuid, meter: string, additional: int, now: Time, k: CounterKey, limit: int,
                        l: int)
    requires id in t.reservations && meter in t.reservations[id].requested
    requires 0 < additional <= Left(t, t.reservations[id].period, meter, l)
    requires t.reservations[id].period == k.period && meter == k.meter ==> l <= limit
    requires Committed(t, k) <= limit
    ensures Committed(Enlarged(t, id, meter, additional, now), k) <= limit
    ensures Reading(Enlarged(t, id, meter, additional, now).counters, k).used == Reading(t.counters, k).used
  {
  }

  lemma ToppingCommits(t: Tables, id: Uuid, meter: string, actual: int, l: int, now: Time, k: CounterKey, limit: int)
    requires id in t.reservations && meter in t.reservations[id].requested
    requires t.reservations[id].period == k.period && meter == k.meter ==> l <= limit
    requires Committed(t, k) <= limit
    ensures Committed(Topped(t, id, meter, actual, l, now), k) <= limit
    ensures Reading(Topped(t, id, meter, actual, l, now).counters, k).used == Reading(t.counters, k).used
  {
    var extra := Extra(t, id, meter, actual, l);
    hide Extra, Enlarged, Left, Committed;
    if extra > 0 { EnlargedCommits(t, id, meter, extra, now, k, limit, l); }
  }

  lemma SettledAtCommits(t: Tables, id: Uuid, q: Quantities, now: Time, k: CounterKey)
    requires id in t.reservations && Normal(t.reservations[id].requested) && Normal(q) &&
             Within(q, t.reservations[id].requested)
    ensures Committed(SettledAt(t, id, q, now), k) <= Committed(t, k)
    ensures Reading(SettledAt(t, id, q, now).counters, k).used >= Reading(t.counters, k).used
  {
    hide MoveToUsed, SettledRow;
    MoveToUsedReading(t.counters, t.reservations[id].period, t.reservations[id].requested, q, k);
  }

  lemma SettleWithSupplementCommits(t: Tables, id: Uuid, meter: string, actual: int, l: int, now: Time,
                                    k: CounterKey, limit: int)
    requires Consistent(t) && Committed(t, k) <= limit
    requires id in t.reservations && t.reservations[id].period == k.period && meter == k.meter ==> l <= limit
    ensures Committed(SettleWithSupplement(t, id, meter, actual, l, now).tables, k) <= limit
    ensures Reading(SettleWithSupplement(t, id, meter, actual, l, now).tables.counters, k).used >=
            Reading(t.counters, k).used
  {
    if actual >= 0 && id in t.reservations && t.reservations[id].state == Reserved &&
      meter in t.reservations[id].requested {
      var u := Topped(t, id, meter, actual, l, now);
      ToppingKeepsAgreement(t, id, meter, actual, l, now);
      assert RowsWellFormed(u) && RowWellFormed(u.reservations[id]);
      hide Consistent, RowsWellFormed, CountersHold, Topped, Extra, Billed, OfMeter, Committed, Reading, SettledAt;
      ToppingCommits(t, id, meter, actual, l, now, k, limit);
      BilledIsSettleable(u, id, meter, actual);
      SettledAtCommits(u, id, OfMeter(meter, Billed(u, id, meter, actual)), now, k);
    }
  }

  lemma SettleCommits(t: Tables, id: Uuid, q: Quantities, now: Time, k: CounterKey)
    requires Consistent(t)
    ensures Committed(Settle(t, id, q, now).tables, k) <= Committed(t, k)
    ensures Reading(Settle(t, id, q, now).tables.counters, k).used >= Reading(t.counters, k).used
  {
    var n := Normalized(q, true);
    assert id in t.reservations ==> RowWellFormed(t.reservations[id]);
    hide Consistent, CountersHold, Normalized, SettledAt, Committed;
    if n.Ok? && id in t.reservations && Within(n.value, t.reservations[id].requested) {
      SettledAtCommits(t, id, n.value, now, k);
    }
  }

  lemma SupplementCommits(t: Tables, id: Uuid, meter: string, target: int, l: int, now: Time, k: CounterKey, limit: int)
    requires Committed(t, k) <= limit
    requires id in t.reservations && t.reservations[id].period == k.period && meter == k.meter ==> l <= limit
    ensures Committed(Supplement(t, id, meter, target, l, now).tables, k) <= limit
    ensures Reading(Supplement(t, id, meter, target, l, now).tables.counters, k).used == Reading(t.counters, k).used
  {
  }

  lemma StepCommits(t: Tables, accounts: set<Uuid>, op: Op, k: CounterKey, limit: int)
    requires Consistent(t) && Legal(t, op) && LimitedBy(t, op, k, limit) && Committed(t, k) <= limit
    ensures Committed(Step(t, accounts, op), k) <= limit
    ensures Reading(Step(t, accounts, op).counters, k).used >= Reading(t.counters, k).used
  {
    hide Consistent, Reserve, Settle, SettleWithSupplement, Supplement, Release, ExpireAll;
    match op
    case DoReserve(e, req, newId, now) => ReserveCommits(t, accounts, e, req, newId, now, k, limit);
    case DoSettle(id, q, now) => SettleCommits(t, id, q, now, k);
    case DoSettleWithSupplement(id, meter, actual, l, now) =>
      SettleWithSupplementCommits(t, id, meter, actual, l, now, k, limit);
    case DoSupplement(id, meter, target, l, now) => SupplementCommits(t, id, meter, target, l, now, k, limit);
    case DoRelease(id, reason, now) => ReleaseCommits(t, id, reason, now, k);
    case DoExpire(batch, now) => ExpireCommits(t, batch, now, k);
    case DoTouch(ids, now) =>
  }

  ghost predicate RunLimitedBy(t: Tables, accounts: set<Uuid>, ops: seq<Op>, k: CounterKey, limit: int) {
    forall i :: 0 <= i < |ops| ==> LimitedBy(Run(t, accounts, ops[..i]), ops[i], k, limit)
  }

  /**
    While no operation is granted more than `limit` for a counter, what that counter has committed
    never exceeds `limit`, and what it has finally used never shrinks.
   */
  lemma {:induction false} AllowanceIsNeverExceeded(t: Tables, accounts: set<Uuid>, ops: seq<Op>, k: CounterKey,
                                                    limit: int)
    requires Consistent(t) && LegalRun(t, accounts, ops) && RunLimitedBy(t, accounts, ops, k, limit)
    requires Committed(t, k) <= limit
    ensures Consistent(Run(t, accounts, ops))
    ensures Committed(Run(t, accounts, ops), k) <= limit
    ensures Reading(Run(t, accounts, ops).counters, k).used >= Reading(t.counters, k).used
  {
    if ops != [] {
      var before := ops[..|ops| - 1];
      assert forall i :: 0 <= i < |before| ==> before[..i] == ops[..i];
      assert LimitedBy(Run(t, accounts, ops[..|ops| - 1]), ops[|ops| - 1], k, limit);
      hide Consistent, LimitedBy, Committed, Reading, Step, Legal;
      AllowanceIsNeverExceeded(t, accounts, before, k, limit);
      StepKeepsAgreement(Run(t, accounts, before), accounts, ops[|ops| - 1]);
      StepCommits(Run(t, accounts, before), accounts, ops[|ops| - 1], k, limit);
    }
  }
}
