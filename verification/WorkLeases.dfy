/** Time-bounded synchronisation leases on work runs (db/work_repository.py). */
module WorkLeases {
  import opened Prelude

  datatype Lease = Lease(owner: string, expiresAt: Time)

  type Leases = map<Uuid, Lease>

  /** `ttl` is in seconds; no lease is shorter than five, whatever the caller asked for. */
  function Expiry(now: Time, ttl: int): Time {
    now + 1000 * (if ttl < 5 then 5 else ttl)
  }

  /** The upsert's condition: no row, an expired row, or a row of the same owner. */
  predicate Claimable(leases: Leases, run: Uuid, owner: string, now: Time) {
    run in leases ==> leases[run].expiresAt <= now || leases[run].owner == owner
  }

  class LeaseTable {
    var leases: Leases

    constructor ()
      ensures leases == map[]
    {
      leases := map[];
    }

    /** A renewal replaces the expiry even when that makes it earlier. */
    method ClaimSyncLease(run: Uuid, owner: string, ttl: int, now: Time) returns (claimed: bool)
      modifies this
      ensures claimed <==> Claimable(old(leases), run, owner, now)
      ensures leases == Step(old(leases), Claim(run, owner, ttl, now))
    {
      if run in leases && now < leases[run].expiresAt && leases[run].owner != owner { return false; }
      leases := leases[run := Lease(owner, Expiry(now, ttl))];
      claimed := true;
    }

    method ReleaseSyncLease(run: Uuid, owner: string, now: Time)
      modifies this
      ensures leases == Step(old(leases), Release(run, owner, now))
    {
      if run in leases && leases[run].owner == owner { leases := leases - {run}; }
    }
  }

  /** The moment of a release changes no row; it dates the op on the shared clock. */
  datatype Op =
    | Claim(run: Uuid, owner: string, ttl: int, now: Time)
    | Release(run: Uuid, owner: string, now: Time)

  function Step(leases: Leases, op: Op): Leases {
    match op
    case Claim(run, owner, ttl, now) =>
      if Claimable(leases, run, owner, now) then leases[run := Lease(owner, Expiry(now, ttl))] else leases
    case Release(run, owner, _) =>
      if run in leases && leases[run].owner == owner then leases - {run} else leases
  }

  /** After a release anybody can claim the run exactly if the lease was the releaser's, or could be claimed anyway. */
  lemma ReleaseFreesTheOwnLease(leases: Leases, run: Uuid, owner: string, now: Time, other: string, later: Time)
    ensures Claimable(Step(leases, Release(run, owner, now)), run, other, later) <==>
            (run in leases && leases[run].owner == owner) || Claimable(leases, run, other, later)
    ensures forall x :: x != run ==>
              (Claimable(Step(leases, Release(run, owner, now)), x, other, later) <==>
               Claimable(leases, x, other, later))
  {
  }

  /** The table after the first n operations. */
  function After(trace: seq<Op>, n: nat): Leases
    requires n <= |trace|
  {
    if n == 0 then map[] else Step(After(trace, n - 1), trace[n - 1])
  }

  /** One clock for everybody, and it never goes back. */
  ghost predicate SharedClock(trace: seq<Op>) {
    forall i, j :: 0 <= i <= j < |trace| ==> trace[i].now <= trace[j].now
  }

  predicate Won(trace: seq<Op>, i: nat) {
    i < |trace| && trace[i].Claim? && Claimable(After(trace, i), trace[i].run, trace[i].owner, trace[i].now)
  }

  function Earlier(a: Time, b: Time): Time {
    if a <= b then a else b
  }

  /** Operation m closes the tenure of claim i: its owner released the run or renewed the lease. */
  predicate Closes(trace: seq<Op>, i: nat, m: nat)
    requires i < |trace| && m < |trace|
  {
    trace[m].run == trace[i].run && trace[m].owner == trace[i].owner && (trace[m].Release? || Won(trace, m))
  }

  /** When the tenure of claim i ends, as far as the first n operations tell. */
  function TenureEnd(trace: seq<Op>, i: nat, n: nat): Time
    requires i < n <= |trace| && trace[i].Claim?
  {
    if n == i + 1 then Expiry(trace[i].now, trace[i].ttl)
    else if Closes(trace, i, n - 1) then Earlier(TenureEnd(trace, i, n - 1), trace[n - 1].now)
    else TenureEnd(trace, i, n - 1)
  }

  ghost predicate Over(trace: seq<Op>, i: nat, n: nat)
    requires i < n <= |trace| && trace[i].Claim?
  {
    TenureEnd(trace, i, n) <= trace[n - 1].now
  }

  /** The row in the table is the one claim i wrote. */
  ghost predicate Standing(trace: seq<Op>, i: nat, n: nat)
    requires i < n <= |trace| && trace[i].Claim?
  {
    && trace[i].run in After(trace, n)
    && After(trace, n)[trace[i].run] == Lease(trace[i].owner, Expiry(trace[i].now, trace[i].ttl))
    && TenureEnd(trace, i, n) == Expiry(trace[i].now, trace[i].ttl)
  }

  /** A claim that won stands in the table until its tenure is over. */
  lemma {:induction false} OverOrStanding(trace: seq<Op>, i: nat, n: nat)
    requires SharedClock(trace) && i < n <= |trace| && Won(trace, i)
    ensures Over(trace, i, n) || Standing(trace, i, n)
  {
    if i + 1 < n {
      OverOrStanding(trace, i, n - 1);
      assert trace[n - 2].now <= trace[n - 1].now;
    }
  }

  /** Every row was written by a claim whose tenure no release or renewal has closed. */
  lemma {:induction false} RowHasAWinner(trace: seq<Op>, n: nat, run: Uuid) returns (i: nat)
    requires n <= |trace| && run in After(trace, n)
    ensures i < n && Won(trace, i) && trace[i].run == run && Standing(trace, i, n)
  {
    if trace[n - 1].Claim? && trace[n - 1].run == run && Won(trace, n - 1) {
      i := n - 1;
    } else {
      i := RowHasAWinner(trace, n - 1, run);
    }
  }

  /** Tenures of different owners never overlap: whoever wins the run later finds the earlier tenure over. */
  lemma TenuresNeverOverlap(trace: seq<Op>, i: nat, j: nat)
    requires SharedClock(trace) && i < j < |trace| && Won(trace, i) && Won(trace, j)
    requires trace[i].run == trace[j].run && trace[i].owner != trace[j].owner
    ensures TenureEnd(trace, i, j) <= trace[j].now
  {
    OverOrStanding(trace, i, j);
    assert trace[j - 1].now <= trace[j].now;
  }

  /** A claim wins exactly when the tenure of every other owner is over by then. */
  lemma WinsIffNobodyElseHolds(trace: seq<Op>, j: nat)
    requires SharedClock(trace) && j < |trace| && trace[j].Claim?
    ensures Won(trace, j) <==>
            forall i: nat ::
              (i < j && Won(trace, i) && trace[i].run == trace[j].run && trace[i].owner != trace[j].owner) ==>
              TenureEnd(trace, i, j) <= trace[j].now
  {
    var run := trace[j].run;
    if Won(trace, j) {
      forall i: nat | i < j && Won(trace, i) && trace[i].run == run && trace[i].owner != trace[j].owner
        ensures TenureEnd(trace, i, j) <= trace[j].now
      {
        TenuresNeverOverlap(trace, i, j);
      }
    } else {
      var i := RowHasAWinner(trace, j, run);
      assert trace[i].owner != trace[j].owner && trace[j].now < TenureEnd(trace, i, j);
    }
  }

  /** A claim that wins holds the run for its seconds, five at least: until then nobody else can claim it. */
  lemma ClaimLasts(leases: Leases, run: Uuid, owner: string, ttl: int, now: Time, other: string, later: Time)
    requires Claimable(leases, run, owner, now) && other != owner
    ensures Claimable(Step(leases, Claim(run, owner, ttl, now)), run, other, later) <==>
            later - now >= 5000 && later - now >= 1000 * ttl
    ensures Claimable(Step(leases, Claim(run, owner, ttl, now)), run, owner, later)
    ensures forall x :: x != run ==>
              (x in Step(leases, Claim(run, owner, ttl, now)) <==> x in leases) &&
                (x in leases ==> Step(leases, Claim(run, owner, ttl, now))[x] == leases[x])
  {
  }

  /** A run can be claimed without a lease, with one that is over, or with the own one. */
  lemma ClaimableIff(leases: Leases, run: Uuid, owner: string, now: Time)
    ensures Claimable(leases, run, owner, now) <==>
            run !in leases || leases[run].owner == owner || now >= leases[run].expiresAt
    ensures !Claimable(leases, run, owner, now) ==>
              forall ttl :: Step(leases, Claim(run, owner, ttl, now)) == leases
  {
  }
}
