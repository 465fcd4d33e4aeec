/**
  Usage counters and credit reservations as tables, and what it means for the two to agree.
  db/billing_repository.py owns the rows; server/billing/metering_service.py pairs every change of
  a reservation with its change of the counters.
 */
module UsageTables {
  import opened Prelude

  /** Meter quantities, as stored in a reservation's JSON columns. */
  type Quantities = map<string, int>

  function AllowedMeters(): set<string> { {"ai_credits"} }

  datatype CounterKey = CounterKey(period: Uuid, meter: string)

  datatype Counter = Counter(used: int, reserved: int)

  datatype ReservationState = Reserved | Settled | Released | Expired

  datatype Reservation = Reservation(
    account: Uuid,
    period: Uuid,
    requestId: string,
    operation: string,
    state: ReservationState,
    requested: Quantities,
    settled: Option<Quantities>,
    releaseReason: Option<string>,
    lastActivity: Time,
    settledAt: Option<Time>,
    releasedAt: Option<Time>)

  datatype Tables = Tables(counters: map<CounterKey, Counter>, reservations: map<Uuid, Reservation>)

  function Amount(q: Quantities, meter: string): int {
    if meter in q then q[meter] else 0
  }

  /** Positive quantities of known meters; what normalising leaves of a mapping. */
  predicate Normal(q: Quantities) {
    forall m :: m in q ==> m in AllowedMeters() && q[m] > 0
  }

  predicate Within(part: Quantities, whole: Quantities) {
    forall m :: m in part ==> m in whole && part[m] <= whole[m]
  }

  predicate RowWellFormed(r: Reservation) {
    && Normal(r.requested) && r.requested != map[]
    && (r.settled.Some? <==> r.state == Settled)
    && (r.settled.Some? ==> Normal(r.settled.value) && Within(r.settled.value, r.requested))
  }

  /** The unique constraint on (billing_account_id, request_id). */
  ghost predicate RequestsUnique(rs: map<Uuid, Reservation>) {
    forall a, b :: a in rs && b in rs && rs[a].account == rs[b].account && rs[a].requestId == rs[b].requestId ==> a == b
  }

  /** A counter's value, where a counter not yet created reads as zero. */
  function Reading(counters: map<CounterKey, Counter>, k: CounterKey): Counter {
    if k in counters then counters[k] else Counter(0, 0)
  }

  /** What one reservation contributes to a counter. */
  function Share(r: Reservation, k: CounterKey): Counter {
    if r.period != k.period then Counter(0, 0)
    else if r.state == Reserved then Counter(0, Amount(r.requested, k.meter))
    else if r.state == Settled && r.settled.Some? then Counter(Amount(r.settled.value, k.meter), 0)
    else Counter(0, 0)
  }

  function Plus(a: Counter, b: Counter): Counter { Counter(a.used + b.used, a.reserved + b.reserved) }

  /** Some key of the table. */
  ghost function Pick<K(!new), V>(rows: map<K, V>): (k: K)
    requires rows != map[]
    ensures k in rows
  {
    assert rows.Keys != {};
    var k :| k in rows;
    k
  }

  /** The sum of all reservations' contributions. */
  ghost function Total(rs: map<Uuid, Reservation>, k: CounterKey): Counter {
    if rs == map[] then Counter(0, 0)
    else
      var id := Pick(rs);
      Plus(Share(rs[id], k), Total(rs - {id}, k))
  }

  lemma {:induction false} TotalWithout(rs: map<Uuid, Reservation>, id: Uuid, k: CounterKey)
    requires id in rs
    ensures Total(rs, k) == Plus(Share(rs[id], k), Total(rs - {id}, k))
    decreases |rs|
  {
    hide Share;
    var first := Pick(rs);
    if first != id {
      TotalWithout(rs - {first}, id, k);
      TotalWithout(rs - {id}, first, k);
      assert rs - {first} - {id} == rs - {id} - {first};
    }
  }

  /** Replacing or adding one row changes the total by exactly the change of its contribution. */
  lemma {:induction false} TotalAfterPut(rs: map<Uuid, Reservation>, id: Uuid, r: Reservation, k: CounterKey)
    ensures Plus(Total(rs[id := r], k), if id in rs then Share(rs[id], k) else Counter(0, 0)) ==
            Plus(Total(rs, k), Share(r, k))
  {
    hide Share, Total;
    TotalWithout(rs[id := r], id, k);
    assert rs[id := r] - {id} == rs - {id};
    if id in rs { TotalWithout(rs, id, k); } else { assert rs - {id} == rs; }
  }

  /** No total is smaller than any one row's contribution. */
  lemma {:induction false} TotalCovers(rs: map<Uuid, Reservation>, k: CounterKey)
    requires forall id :: id in rs ==> RowWellFormed(rs[id])
    ensures Total(rs, k).used >= 0 && Total(rs, k).reserved >= 0
    ensures forall id :: id in rs ==> Share(rs[id], k).used <= Total(rs, k).used &&
                                      Share(rs[id], k).reserved <= Total(rs, k).reserved
    decreases |rs|
  {
    if rs != map[] {
      var first := Pick(rs);
      TotalCovers(rs - {first}, k);
      forall id | id in rs
        ensures Share(rs[id], k).used <= Total(rs, k).used && Share(rs[id], k).reserved <= Total(rs, k).reserved
      {
        if id != first { assert id in rs - {first} && (rs - {first})[id] == rs[id]; }
      }
    }
  }

  ghost predicate RowsWellFormed(t: Tables) {
    && (forall id :: id in t.reservations ==> RowWellFormed(t.reservations[id]))
    && RequestsUnique(t.reservations)
  }

  /** Every counter is the sum of what the reservations say it should be. */
  ghost predicate Consistent(t: Tables) {
    && RowsWellFormed(t)
    && forall k :: Reading(t.counters, k) == Total(t.reservations, k)
  }

  /** One row changes and every counter moves by exactly that row's change: the tables stay in agreement. */
  lemma RowChangeKeepsAgreement(t: Tables, u: Tables, id: Uuid)
    requires Consistent(t) && RowsWellFormed(u)
    requires id in u.reservations && u.reservations == t.reservations[id := u.reservations[id]]
    requires forall k :: Plus(Reading(u.counters, k), if id in t.reservations then Share(t.reservations[id], k)
                              else Counter(0, 0)) ==
                         Plus(Reading(t.counters, k), Share(u.reservations[id], k))
    ensures Consistent(u)
  {
    hide Share, Total, Reading, RowsWellFormed;
    forall k ensures Reading(u.counters, k) == Total(u.reservations, k) {
      TotalAfterPut(t.reservations, id, u.reservations[id], k);
    }
  }
}
