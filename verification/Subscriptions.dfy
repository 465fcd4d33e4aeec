/** Subscription snapshots: stale events are ignored, accounts never change hands (db/billing_repository.py). */
module Subscriptions {
  import opened Prelude

  datatype SubscriptionKey = SubscriptionKey(provider: string, subscriptionId: string)

  datatype Details = Details(
    planCode: string,
    status: string,
    priceId: Option<string>,
    periodStart: Option<Time>,
    periodEnd: Option<Time>,
    cancelAtPeriodEnd: bool,
    canceledAt: Option<Time>,
    trialEnd: Option<Time>,
    graceUntil: Option<Time>,
    latestInvoiceId: Option<string>)

  datatype Snapshot = Snapshot(account: Uuid, key: SubscriptionKey, details: Details, eventAt: Option<Time>)

  datatype Row = Row(id: Uuid, account: Uuid, details: Details, eventAt: Option<Time>, updatedAt: Time)

  type Subscriptions = map<SubscriptionKey, Row>

  datatype SubscriptionError = OtherAccount | AnotherLiveSubscription | NotPersisted

  function LiveStatuses(): set<string> {
    {"trialing", "active", "past_due", "unpaid", "paused", "incomplete"}
  }

  /** The partial unique index: an account has at most one subscription in a live status. */
  predicate BlockedByAnother(rows: Subscriptions, s: Snapshot) {
    s.details.status in LiveStatuses() &&
    exists k :: k in rows && k != s.key && rows[k].account == s.account && rows[k].details.status in LiveStatuses()
  }

  /** The condition of the conflict update. */
  predicate Accepts(row: Row, s: Snapshot) {
    row.account == s.account &&
    (s.eventAt.Some? ==> row.eventAt.None? || row.eventAt.value <= s.eventAt.value)
  }

  function Apply(rows: Subscriptions, s: Snapshot, newId: Uuid, now: Time): Subscriptions {
    if s.key !in rows then
      if BlockedByAnother(rows, s) then rows
      else rows[s.key := Row(newId, s.account, s.details, s.eventAt, now)]
    else if Accepts(rows[s.key], s) && !BlockedByAnother(rows, s) then
      rows[s.key := rows[s.key].(details := s.details, eventAt := s.eventAt, updatedAt := now)]
    else rows
  }

  class SubscriptionTable {
    var rows: Subscriptions

    constructor ()
      ensures rows == map[]
    {
      rows := map[];
    }

    /** A refused snapshot is another account's or older than the row; "could not be persisted" cannot happen. */
    method UpsertSubscriptionSnapshot(s: Snapshot, newId: Uuid, now: Time) returns (r: Result<Row, SubscriptionError>)
      modifies this
      ensures rows == Apply(old(rows), s, newId, now)
      ensures r.Ok? ==> s.key in rows && r.value == rows[s.key] && r.value.account == s.account
      ensures r == Err(OtherAccount) <==> s.key in old(rows) && old(rows)[s.key].account != s.account
      ensures r.Err? ==> r.error != NotPersisted && rows == old(rows)
      ensures r == Err(AnotherLiveSubscription) <==>
              BlockedByAnother(old(rows), s) && (s.key in old(rows) ==> Accepts(old(rows)[s.key], s))
      ensures s.key in old(rows) && r == Ok(old(rows)[s.key]) && !Accepts(old(rows)[s.key], s) ==>
                old(rows)[s.key].eventAt.value > s.eventAt.value
    {
      if s.key !in rows {
        if BlockedByAnother(rows, s) { return Err(AnotherLiveSubscription); }
        rows := rows[s.key := Row(newId, s.account, s.details, s.eventAt, now)];
        return Ok(rows[s.key]);
      }
      var existing := rows[s.key];
      if existing.account == s.account &&
        (s.eventAt.None? || existing.eventAt.None? || existing.eventAt.value <= s.eventAt.value) {
        if BlockedByAnother(rows, s) { return Err(AnotherLiveSubscription); }
        rows := rows[s.key := existing.(details := s.details, eventAt := s.eventAt, updatedAt := now)];
        return Ok(rows[s.key]);
      }
      if existing.account != s.account { return Err(OtherAccount); }
      if s.eventAt.Some? && existing.eventAt.Some? && existing.eventAt.value > s.eventAt.value { return Ok(existing); }
      return Err(NotPersisted);
    }
  }

  /** The snapshot a row holds: everything but its id and update time. */
  function Stored(rows: Subscriptions, key: SubscriptionKey): Option<Snapshot> {
    if key in rows then Some(Snapshot(rows[key].account, key, rows[key].details, rows[key].eventAt)) else None
  }

  /** A snapshot arriving, with the id an insert would take and the database clock. */
  datatype Delivery = Delivery(snapshot: Snapshot, newId: Uuid, now: Time)

  function ApplyAll(rows: Subscriptions, ds: seq<Delivery>): Subscriptions {
    if ds == [] then rows
    else
      var d := ds[|ds| - 1];
      Apply(ApplyAll(rows, ds[..|ds| - 1]), d.snapshot, d.newId, d.now)
  }

  /** Whatever is delivered, a subscription stays with the account and row it was first stored for. */
  lemma {:induction false} AccountNeverChanges(rows: Subscriptions, ds: seq<Delivery>, k: SubscriptionKey)
    requires k in rows
    ensures k in ApplyAll(rows, ds)
    ensures ApplyAll(rows, ds)[k].account == rows[k].account && ApplyAll(rows, ds)[k].id == rows[k].id
  {
    if ds != [] { AccountNeverChanges(rows, ds[..|ds| - 1], k); }
  }

  ghost predicate OneLivePerAccount(rows: Subscriptions) {
    forall k, l ::
      (k in rows && l in rows && rows[k].account == rows[l].account &&
       rows[k].details.status in LiveStatuses() && rows[l].details.status in LiveStatuses()) ==> k == l
  }

  lemma {:induction false} OneLivePerAccountAlways(rows: Subscriptions, ds: seq<Delivery>)
    requires OneLivePerAccount(rows)
    ensures OneLivePerAccount(ApplyAll(rows, ds))
  {
    if ds != [] {
      OneLivePerAccountAlways(rows, ds[..|ds| - 1]);
      var before, d := ApplyAll(rows, ds[..|ds| - 1]), ds[|ds| - 1];
      assert OneLivePerAccount(Apply(before, d.snapshot, d.newId, d.now));
    }
  }

  /** Timestamped snapshots of one subscription for one account. */
  ghost predicate OneStream(ds: seq<Delivery>, account: Uuid, key: SubscriptionKey) {
    forall d :: d in ds ==> d.snapshot.account == account && d.snapshot.key == key && d.snapshot.eventAt.Some?
  }

  /** No other subscription of the account is live, so the index never interferes. */
  ghost predicate Unobstructed(rows: Subscriptions, account: Uuid, key: SubscriptionKey) {
    forall k :: k in rows && k != key && rows[k].account == account ==> rows[k].details.status !in LiveStatuses()
  }

  /** Among deliveries with the greatest event time, the one delivered last. */
  function Winner(ds: seq<Delivery>): Snapshot
    requires ds != [] && forall d :: d in ds ==> d.snapshot.eventAt.Some?
    ensures Winner(ds).eventAt.Some?
  {
    var last := ds[|ds| - 1].snapshot;
    if |ds| == 1 then last
    else
      var earlier := Winner(ds[..|ds| - 1]);
      if earlier.eventAt.value <= last.eventAt.value then last else earlier
  }

  lemma {:induction false} WinnerIsLatest(ds: seq<Delivery>)
    requires ds != [] && forall d :: d in ds ==> d.snapshot.eventAt.Some?
    ensures exists d :: d in ds && d.snapshot == Winner(ds)
    ensures forall d :: d in ds ==> d.snapshot.eventAt.value <= Winner(ds).eventAt.value
  {
    var last := ds[|ds| - 1];
    assert last in ds;
    if |ds| > 1 {
      var front := ds[..|ds| - 1];
      WinnerIsLatest(front);
      var d :| d in front && d.snapshot == Winner(front);
      assert d in ds;
      assert forall x :: x in ds ==> x in front || x == last;
    } else {
      assert forall x :: x in ds ==> x == last;
    }
  }

  /** After any such stream the stored row is the winner's, and no other row has moved. */
  lemma {:induction false} StreamStoresTheWinner(rows: Subscriptions, ds: seq<Delivery>, account: Uuid,
                                                 key: SubscriptionKey)
    requires ds != [] && OneStream(ds, account, key)
    requires key !in rows && Unobstructed(rows, account, key)
    ensures var final := ApplyAll(rows, ds);
            && final.Keys == rows.Keys + {key}
            && (forall k :: k in rows ==> final[k] == rows[k])
            && Stored(final, key) == Some(Winner(ds)) && final[key].account == account
  {
    var front, last := ds[..|ds| - 1], ds[|ds| - 1];
    assert last in ds;
    if |ds| == 1 {
      assert front == [];
    } else {
      assert forall d :: d in front ==> d in ds;
      StreamStoresTheWinner(rows, front, account, key);
      hide Winner;
      WinnerStep(ds);
      assert last.snapshot.account == account && last.snapshot.key == key;
      assert !BlockedByAnother(ApplyAll(rows, front), last.snapshot);
    }
  }

  lemma WinnerStep(ds: seq<Delivery>)
    requires |ds| > 1 && forall d :: d in ds ==> d.snapshot.eventAt.Some?
    ensures forall d :: d in ds[..|ds| - 1] ==> d in ds
    ensures var earlier, last := Winner(ds[..|ds| - 1]), ds[|ds| - 1].snapshot;
            Winner(ds) == if earlier.eventAt.value <= last.eventAt.value then last else earlier
  {
  }

  /** One snapshot per event time; duplicate deliveries are welcome. */
  ghost predicate DistinctTimes(ds: seq<Delivery>) {
    forall d, e :: d in ds && e in ds && d.snapshot.eventAt == e.snapshot.eventAt ==> d.snapshot == e.snapshot
  }

  function Snapshots(ds: seq<Delivery>): set<Snapshot> {
    set d | d in ds :: d.snapshot
  }

  lemma {:induction false} WinnersAgree(a: seq<Delivery>, b: seq<Delivery>)
    requires a != [] && b != [] && DistinctTimes(a) && Snapshots(a) == Snapshots(b)
    requires forall d :: d in a ==> d.snapshot.eventAt.Some?
    requires forall d :: d in b ==> d.snapshot.eventAt.Some?
    ensures Winner(a) == Winner(b)
  {
    WinnerIsLatest(a);
    WinnerIsLatest(b);
    hide Winner;
    assert Winner(a) in Snapshots(a) && Winner(b) in Snapshots(b);
    var y :| y in a && y.snapshot == Winner(b);
    var x :| x in b && x.snapshot == Winner(a);
  }

  /**
    Delivery order and duplicates do not matter: two streams of the same snapshots leave the same
    stored snapshot, the one with the greatest event time.
   */
  lemma {:induction false} DeliveryOrderDoesNotMatter(rows: Subscriptions, a: seq<Delivery>, b: seq<Delivery>,
                                                      account: Uuid, key: SubscriptionKey)
    requires a != [] && b != [] && OneStream(a, account, key) && OneStream(b, account, key)
    requires key !in rows && Unobstructed(rows, account, key)
    requires DistinctTimes(a) && Snapshots(a) == Snapshots(b)
    ensures Stored(ApplyAll(rows, a), key) == Stored(ApplyAll(rows, b), key)
    ensures exists d :: d in a && Stored(ApplyAll(rows, a), key) == Some(d.snapshot) &&
                        forall e :: e in a ==> e.snapshot.eventAt.value <= d.snapshot.eventAt.value
  {
    StreamStoresTheWinner(rows, a, account, key);
    StreamStoresTheWinner(rows, b, account, key);
    hide ApplyAll, Winner, Unobstructed;
    WinnersAgree(a, b);
    WinnerIsLatest(a);
  }

  /** Two different snapshots bearing one event time, and only those, depend on the order: the later delivery wins. */
  lemma EqualTimesGoToTheLastDelivered(rows: Subscriptions, d: Delivery, e: Delivery)
    requires OneStream([d, e], d.snapshot.account, d.snapshot.key)
    requires d.snapshot.key !in rows && Unobstructed(rows, d.snapshot.account, d.snapshot.key)
    ensures Stored(ApplyAll(rows, [d, e]), d.snapshot.key) == Stored(ApplyAll(rows, [e, d]), d.snapshot.key) <==>
            d.snapshot.eventAt != e.snapshot.eventAt || d.snapshot == e.snapshot
  {
    assert d in [d, e] && e in [d, e];
    StreamStoresTheWinner(rows, [d, e], d.snapshot.account, d.snapshot.key);
    StreamStoresTheWinner(rows, [e, d], d.snapshot.account, d.snapshot.key);
    hide ApplyAll, Unobstructed;
    assert [d, e][..1] == [d] && [e, d][..1] == [e];
  }

  // -- among deliveries for other subscriptions, onto a row that may exist ----------------------------

  /** The deliveries for one subscription, in order. */
  function Own(ds: seq<Delivery>, key: SubscriptionKey): seq<Delivery> {
    if ds == [] then []
    else Own(ds[..|ds| - 1], key) + (if ds[|ds| - 1].snapshot.key == key then [ds[|ds| - 1]] else [])
  }

  /** A stored row counts as one delivery that came first. */
  function Known(rows: Subscriptions, key: SubscriptionKey): seq<Delivery> {
    if key in rows then [Delivery(Stored(rows, key).value, rows[key].id, rows[key].updatedAt)] else []
  }

  function History(rows: Subscriptions, ds: seq<Delivery>, key: SubscriptionKey): seq<Delivery> {
    Known(rows, key) + Own(ds, key)
  }

  /** Timestamped snapshots of the subscription for its account; the account's other ones do not go live. */
  ghost predicate Compatible(rows: Subscriptions, ds: seq<Delivery>, account: Uuid, key: SubscriptionKey) {
    && Unobstructed(rows, account, key)
    && (key in rows ==> rows[key].account == account && rows[key].eventAt.Some?)
    && (forall d :: d in ds && d.snapshot.key == key ==> d.snapshot.account == account && d.snapshot.eventAt.Some?)
    && (forall d :: d in ds && d.snapshot.key != key && d.snapshot.account == account ==>
          d.snapshot.details.status !in LiveStatuses())
  }

  lemma {:induction false} OwnMembers(ds: seq<Delivery>, key: SubscriptionKey)
    ensures forall d :: d in Own(ds, key) <==> d in ds && d.snapshot.key == key
  {
    if ds != [] {
      OwnMembers(ds[..|ds| - 1], key);
      assert ds == ds[..|ds| - 1] + [ds[|ds| - 1]];
    }
  }

  lemma HistoryIsTimestamped(rows: Subscriptions, ds: seq<Delivery>, account: Uuid, key: SubscriptionKey)
    requires Compatible(rows, ds, account, key)
    ensures forall d :: d in History(rows, ds, key) ==>
              d.snapshot.eventAt.Some? && d.snapshot.account == account && d.snapshot.key == key
  {
    OwnMembers(ds, key);
  }

  lemma ApplyElsewhere(rows: Subscriptions, d: Delivery, account: Uuid, key: SubscriptionKey)
    requires Unobstructed(rows, account, key) && d.snapshot.key != key
    requires d.snapshot.account == account ==> d.snapshot.details.status !in LiveStatuses()
    ensures var after := Apply(rows, d.snapshot, d.newId, d.now);
            Unobstructed(after, account, key) && Stored(after, key) == Stored(rows, key)
  {
  }

  lemma ApplyHere(rows: Subscriptions, d: Delivery, account: Uuid, key: SubscriptionKey)
    requires Unobstructed(rows, account, key) && d.snapshot.key == key && d.snapshot.account == account &&
             d.snapshot.eventAt.Some?
    requires key in rows ==> rows[key].account == account && rows[key].eventAt.Some?
    ensures var after := Apply(rows, d.snapshot, d.newId, d.now);
            && Unobstructed(after, account, key)
            && Stored(after, key) == Some(if key in rows && d.snapshot.eventAt.value < rows[key].eventAt.value
                                          then Stored(rows, key).value else d.snapshot)
  {
    assert !BlockedByAnother(rows, d.snapshot);
  }

  /** Whatever else arrives in between, the row holds the latest of what it held and what was delivered for it. */
  lemma {:induction false} InterleavedStreamStoresTheWinner(rows: Subscriptions, ds: seq<Delivery>, account: Uuid,
                                                            key: SubscriptionKey)
    requires Compatible(rows, ds, account, key)
    ensures Unobstructed(ApplyAll(rows, ds), account, key)
    ensures forall d :: d in History(rows, ds, key) ==> d.snapshot.eventAt.Some?
    ensures var all := History(rows, ds, key);
            Stored(ApplyAll(rows, ds), key) == if all == [] then None else Some(Winner(all))
  {
    HistoryIsTimestamped(rows, ds, account, key);
    if ds == [] {
      NothingDelivered(rows, account, key);
    } else {
      HistoryOfOneMore(rows, ds, account, key);
      hide Winner, Apply, Unobstructed, History, Compatible, Stored;
      var front := ds[..|ds| - 1];
      InterleavedStreamStoresTheWinner(rows, front, account, key);
      HistoryIsTimestamped(rows, front, account, key);
      StoreOneMore(ApplyAll(rows, front), History(rows, front, key), ds[|ds| - 1], account, key);
    }
  }

  lemma NothingDelivered(rows: Subscriptions, account: Uuid, key: SubscriptionKey)
    requires Compatible(rows, [], account, key)
    ensures var all := History(rows, [], key);
            && (forall d :: d in all ==> d.snapshot.eventAt.Some?)
            && Stored(rows, key) == (if all == [] then None else Some(Winner(all)))
            && Unobstructed(rows, account, key)
  {
  }

  lemma HistoryOfOneMore(rows: Subscriptions, ds: seq<Delivery>, account: Uuid, key: SubscriptionKey)
    requires ds != [] && Compatible(rows, ds, account, key)
    ensures var front, d := ds[..|ds| - 1], ds[|ds| - 1];
            && Compatible(rows, front, account, key)
            && History(rows, ds, key) == History(rows, front, key) + (if d.snapshot.key == key then [d] else [])
            && (d.snapshot.key == key ==> d.snapshot.account == account && d.snapshot.eventAt.Some?)
            && (d.snapshot.key != key && d.snapshot.account == account ==> d.snapshot.details.status !in LiveStatuses())
  {
    assert ds[|ds| - 1] in ds && forall x :: x in ds[..|ds| - 1] ==> x in ds;
    hide Unobstructed;
  }

  /** One more delivery onto a table that holds the latest so far. */
  lemma StoreOneMore(rows: Subscriptions, earlier: seq<Delivery>, d: Delivery, account: Uuid, key: SubscriptionKey)
    requires Unobstructed(rows, account, key)
    requires forall x :: x in earlier ==>
               x.snapshot.eventAt.Some? && x.snapshot.account == account && x.snapshot.key == key
    requires Stored(rows, key) == if earlier == [] then None else Some(Winner(earlier))
    requires d.snapshot.key == key ==> d.snapshot.account == account && d.snapshot.eventAt.Some?
    requires d.snapshot.key != key && d.snapshot.account == account ==> d.snapshot.details.status !in LiveStatuses()
    ensures var after := Apply(rows, d.snapshot, d.newId, d.now);
            var all := earlier + (if d.snapshot.key == key then [d] else []);
            && Unobstructed(after, account, key)
            && (forall x :: x in all ==> x.snapshot.eventAt.Some?)
            && Stored(after, key) == if all == [] then None else Some(Winner(all))
  {
    if d.snapshot.key == key {
      if earlier != [] {
        WinnerOfOneMore(earlier, d);
      } else {
        assert earlier + [d] == [d] && Winner([d]) == d.snapshot;
      }
      hide Winner, Apply, Unobstructed;
      ApplyHere(rows, d, account, key);
    } else {
      assert earlier + [] == earlier;
      hide Winner, Apply, Unobstructed;
      ApplyElsewhere(rows, d, account, key);
    }
  }

  lemma WinnerOfOneMore(ds: seq<Delivery>, d: Delivery)
    requires ds != [] && d.snapshot.eventAt.Some? && forall x :: x in ds ==> x.snapshot.eventAt.Some?
    ensures forall x :: x in ds + [d] ==> x.snapshot.eventAt.Some?
    ensures Winner(ds + [d]) == if Winner(ds).eventAt.value <= d.snapshot.eventAt.value then d.snapshot else Winner(ds)
    ensures exists x :: x in ds && x.snapshot == Winner(ds)
  {
    assert (ds + [d])[..|ds|] == ds;
    WinnerIsLatest(ds);
  }

  /** Order, multiplicity and what arrives in between do not matter: the same snapshots leave the same one stored. */
  lemma InterleavingDoesNotMatter(rows: Subscriptions, a: seq<Delivery>, b: seq<Delivery>, account: Uuid,
                                  key: SubscriptionKey)
    requires Compatible(rows, a, account, key) && Compatible(rows, b, account, key)
    requires DistinctTimes(History(rows, a, key)) &&
             Snapshots(History(rows, a, key)) == Snapshots(History(rows, b, key))
    ensures Stored(ApplyAll(rows, a), key) == Stored(ApplyAll(rows, b), key)
  {
    InterleavedStreamStoresTheWinner(rows, a, account, key);
    InterleavedStreamStoresTheWinner(rows, b, account, key);
    var x, y := History(rows, a, key), History(rows, b, key);
    hide ApplyAll, Winner, History, Compatible;
    if x == [] || y == [] {
      assert x != [] ==> x[0].snapshot in Snapshots(x);
      assert y != [] ==> y[0].snapshot in Snapshots(y);
    } else {
      WinnersAgree(x, y);
    }
  }

  // -- whatever is delivered, for whichever accounts and in whatever status --------------------------

  /** Neither the index nor another owner of the row turns the snapshot away. */
  predicate Admitted(rows: Subscriptions, s: Snapshot) {
    !BlockedByAnother(rows, s) && (s.key in rows ==> rows[s.key].account == s.account)
  }

  /** The subscription's deliveries that were admitted when they came. */
  function AdmittedOf(rows: Subscriptions, ds: seq<Delivery>, key: SubscriptionKey): seq<Delivery> {
    if ds == [] then []
    else
      var front, d := ds[..|ds| - 1], ds[|ds| - 1];
      AdmittedOf(rows, front, key) +
      (if d.snapshot.key == key && Admitted(ApplyAll(rows, front), d.snapshot) then [d] else [])
  }

  ghost predicate Timestamped(rows: Subscriptions, ds: seq<Delivery>, key: SubscriptionKey) {
    && (key in rows ==> rows[key].eventAt.Some?)
    && (forall d :: d in ds && d.snapshot.key == key ==> d.snapshot.eventAt.Some?)
  }

  lemma {:induction false} AdmittedMembers(rows: Subscriptions, ds: seq<Delivery>, key: SubscriptionKey)
    ensures forall d :: d in AdmittedOf(rows, ds, key) ==> d in ds && d.snapshot.key == key
  {
    if ds != [] { AdmittedMembers(rows, ds[..|ds| - 1], key); }
  }

  /** The row holds the latest of what it held and of its deliveries that were admitted when they came. */
  lemma {:induction false} TableStoresTheWinner(rows: Subscriptions, ds: seq<Delivery>, key: SubscriptionKey)
    requires Timestamped(rows, ds, key)
    ensures forall d :: d in Known(rows, key) + AdmittedOf(rows, ds, key) ==> d.snapshot.eventAt.Some?
    ensures var all := Known(rows, key) + AdmittedOf(rows, ds, key);
            Stored(ApplyAll(rows, ds), key) == if all == [] then None else Some(Winner(all))
  {
    AdmittedMembers(rows, ds, key);
    if ds != [] {
      var front, d := ds[..|ds| - 1], ds[|ds| - 1];
      var earlier := Known(rows, key) + AdmittedOf(rows, front, key);
      assert d in ds && forall x :: x in front ==> x in ds;
      TableStoresTheWinner(rows, front, key);
      assert Known(rows, key) + (AdmittedOf(rows, front, key) + [d]) == earlier + [d];
      assert Known(rows, key) + (AdmittedOf(rows, front, key) + []) == earlier;
      hide Winner, Admitted, Apply, Stored, Known;
      TakeOneMore(ApplyAll(rows, front), earlier, d, key);
    }
  }

  /** One more delivery, admitted or not, onto a table that holds the latest so far. */
  lemma TakeOneMore(rows: Subscriptions, earlier: seq<Delivery>, d: Delivery, key: SubscriptionKey)
    requires forall x :: x in earlier ==> x.snapshot.eventAt.Some?
    requires Stored(rows, key) == if earlier == [] then None else Some(Winner(earlier))
    requires d.snapshot.key == key ==> d.snapshot.eventAt.Some?
    ensures var after := Apply(rows, d.snapshot, d.newId, d.now);
            if d.snapshot.key == key && Admitted(rows, d.snapshot) then
              (forall x :: x in earlier + [d] ==> x.snapshot.eventAt.Some?) &&
              Stored(after, key) == Some(Winner(earlier + [d]))
            else Stored(after, key) == Stored(rows, key)
  {
    hide BlockedByAnother;
    if d.snapshot.key == key && Admitted(rows, d.snapshot) {
      if earlier != [] {
        WinnerOfOneMore(earlier, d);
      } else {
        WinnerOfOne(d);
        assert earlier + [d] == [d];
      }
      hide Winner;
    }
  }

  lemma WinnerOfOne(d: Delivery)
    requires d.snapshot.eventAt.Some?
    ensures forall x :: x in [d] ==> x.snapshot.eventAt.Some?
    ensures Winner([d]) == d.snapshot
  {
  }

  // -- the row that is written -----------------------------------------------------------------------

  /** A subscription the account still has: anything but ended. */
  predicate IsLive(status: string) {
    status == "active" || status == "trialing" || status == "past_due" || status == "unpaid" || status == "paused" ||
    status == "incomplete"
  }

  /** A live snapshot is blocked by another live subscription of its account. */
  lemma BlockedIff(rows: Subscriptions, s: Snapshot)
    ensures BlockedByAnother(rows, s) <==>
            IsLive(s.details.status) &&
            exists k :: k in rows && k != s.key && rows[k].account == s.account && IsLive(rows[k].details.status)
  {
  }

  /** A snapshot that is taken is the row, dated with the clock, under the id its row had or a new one. */
  lemma TakenSnapshotIsTheRow(rows: Subscriptions, s: Snapshot, newId: Uuid, now: Time)
    requires Admitted(rows, s)
    ensures var after := Apply(rows, s, newId, now);
            var stale := s.key in rows && s.eventAt.Some? && rows[s.key].eventAt.Some? &&
                         s.eventAt.value < rows[s.key].eventAt.value;
            if stale then after == rows
            else after == rows[s.key := Row(if s.key in rows then rows[s.key].id else newId, s.account, s.details,
                                            s.eventAt, now)]
  {
    hide BlockedByAnother;
  }

  lemma TurnedAwayWritesNothing(rows: Subscriptions, s: Snapshot, newId: Uuid, now: Time)
    requires !Admitted(rows, s)
    ensures Apply(rows, s, newId, now) == rows
  {
  }
}
