/** What each step writes to approvals and tool calls, row by row, and how a claim shows in its call. */
module WorkApprovalWrites {
  import opened Prelude
  import opened WorkApprovals

  /** No approval but this one has been written. */
  predicate OnlyApproval(s: State, t: State, id: Uuid) {
    id in t.approvals && t.approvals == s.approvals[id := t.approvals[id]] && t.owners == s.owners
  }

  /** No call but this one has been written. */
  predicate OnlyCall(s: State, t: State, call: Uuid) {
    call in t.calls && t.calls == s.calls[call := t.calls[call]]
  }

  /** A pending approval of a run whose session is the user's. */
  predicate PendingFor(s: State, id: Uuid, user: Uuid) {
    && id in s.approvals && s.approvals[id].status == Pending
    && s.approvals[id].run in s.owners && s.owners[s.approvals[id].run] == user
  }

  /** A decision is written with its time and its user; the call goes on exactly if it is approved. */
  lemma DecisionWrites(s: State, id: Uuid, user: Uuid, decision: Decision, now: Time)
    requires ReferencesHold(s)
    ensures !PendingFor(s, id, user) ==> Decide(s, id, user, decision, now) == s
    ensures PendingFor(s, id, user) ==>
              var t := Decide(s, id, user, decision, now);
              var a := s.approvals[id];
              && OnlyApproval(s, t, id) && OnlyCall(s, t, a.call)
              && t.approvals[id] == Approval(a.run, a.call, a.requestedAt, decision, Some(now), Some(user))
              && (t.calls[a.call].status == Running <==> decision == Approved)
              && (t.calls[a.call].status == Refused <==> decision != Approved)
              && t.calls[a.call] == s.calls[a.call].(status := t.calls[a.call].status)
  {
  }

  /** Waiting too long: pending, of the run and its user, and not asked after `before`. */
  predicate WaitsTooLong(s: State, id: Uuid, run: Uuid, user: Uuid, before: Time) {
    PendingFor(s, id, user) && s.approvals[id].run == run && s.approvals[id].requestedAt <= before
  }

  /** A sweep closes the approvals that wait too long, by nobody, and their calls; nothing else. */
  lemma SweepWrites(s: State, run: Uuid, user: Uuid, before: Time, now: Time, id: Uuid)
    requires ReferencesHold(s) && id in s.approvals
    ensures var t := Expire(s, run, user, before, now);
            var a := s.approvals[id];
            && t.owners == s.owners && t.approvals.Keys == s.approvals.Keys && t.calls.Keys == s.calls.Keys
            && t.approvals[id] == (if WaitsTooLong(s, id, run, user, before) then
                                     Approval(a.run, a.call, a.requestedAt, Expired, Some(now), None)
                                   else a)
            && (WaitsTooLong(s, id, run, user, before) ==>
                  t.calls[a.call] == Call(s.calls[a.call].run, s.calls[a.call].provider, Refused, Some(now)))
  {
  }

  lemma SweepSparesCalls(s: State, run: Uuid, user: Uuid, before: Time, now: Time, call: Uuid)
    requires call in s.calls
    requires forall id :: id in s.approvals && s.approvals[id].call == call ==> !WaitsTooLong(s, id, run, user, before)
    ensures Expire(s, run, user, before, now).calls[call] == s.calls[call]
  {
  }

  /** Taking a claim back writes the approval as if nobody had decided; the clock's claim takes its time with it. */
  lemma ReopenWrites(s: State, id: Uuid, user: Uuid, decision: Decision)
    requires ReferencesHold(s) && id in s.approvals
    ensures var a := s.approvals[id];
            var own := a.status == decision && a.decidedBy == Some(user);
            var t := Reopen(s, id, user, decision);
            if own then
              && OnlyApproval(s, t, id) && OnlyCall(s, t, a.call)
              && t.approvals[id] == Approval(a.run, a.call, a.requestedAt, Pending, None, None)
              && t.calls[a.call] == Call(s.calls[a.call].run, s.calls[a.call].provider, AwaitingApproval,
                                         s.calls[a.call].completedAt)
            else t == s
    ensures var a := s.approvals[id];
            var t := ReopenExpired(s, id);
            if a.status == Expired && a.decidedBy == None then
              && OnlyApproval(s, t, id) && OnlyCall(s, t, a.call)
              && t.approvals[id] == Approval(a.run, a.call, a.requestedAt, Pending, None, None)
              && t.calls[a.call] == Call(s.calls[a.call].run, s.calls[a.call].provider, AwaitingApproval, None)
            else t == s
  {
  }

  /** A new call is stored as given, unless the run already has one with that provider id. */
  lemma OpenWrites(s: State, newId: Uuid, run: Uuid, provider: Option<string>, status: CallStatus)
    requires newId !in s.calls
    ensures var t := NewCall(s, newId, run, provider, status);
            var again := provider.Some? && exists c :: c in s.calls && s.calls[c].run == run &&
                                                       s.calls[c].provider == provider;
            if again then t == s
            else
              && OnlyCall(s, t, newId) && t.calls[newId] == Call(run, provider, status, None)
              && t.approvals == s.approvals && t.owners == s.owners
  {
  }

  /** Asking stores a pending approval of this moment and makes the call wait for it. */
  lemma AskWrites(s: State, newId: Uuid, call: Uuid, run: Uuid, now: Time)
    requires newId !in s.approvals
    ensures var t := NewApproval(s, newId, call, run, now);
            if call !in s.calls then t == s
            else
              && OnlyApproval(s, t, newId) && OnlyCall(s, t, call)
              && t.approvals[newId] == Approval(run, call, now, Pending, None, None)
              && t.calls[call] == Call(s.calls[call].run, s.calls[call].provider, AwaitingApproval,
                                       s.calls[call].completedAt)
  {
  }

  /** A report reaches the run's calls with the provider id; what ends a call leaves the time. */
  lemma ReportWrites(s: State, run: Uuid, provider: string, status: CallStatus, now: Time, call: Uuid)
    requires call in s.calls
    ensures var t := Progress(s, run, provider, status, now);
            var c := s.calls[call];
            && t.approvals == s.approvals && t.owners == s.owners && t.calls.Keys == s.calls.Keys
            && t.calls[call] ==
               if c.run == run && c.provider == Some(provider) then
                 Call(c.run, c.provider, status,
                      if status == Succeeded || status == Failed || status == Refused then Some(now) else c.completedAt)
               else c
  {
  }

  // -- how a claim shows in its call -----------------------------------------------------------------

  /** The step writes the call of an approval for another reason than a claim of it. */
  predicate Overwrites(s: State, op: Op, id: Uuid)
    requires id in s.approvals
  {
    var call := s.approvals[id].call;
    match op
    case Report(run, provider, _, _) => call in s.calls && SameProviderCall(s.calls[call], run, Some(provider))
    case Ask(_, asked, _, _) => asked == call
    case _ => false
  }

  /** The last claim of the approval stands, and since then nothing else has written its call. */
  predicate ClaimShows(owners: map<Uuid, Uuid>, ops: seq<Op>, id: Uuid) {
    && ops != []
    && var before, op := ops[..|ops| - 1], ops[|ops| - 1];
       var s := Run(owners, before);
       && id in s.approvals && LastClaim(owners, ops, id).Some?
       && (LastClaim(owners, ops, id) == LastClaim(owners, before, id) ==>
             ClaimShows(owners, before, id) && !Overwrites(s, op, id))
  }

  /** Approved calls run, all other claims refuse. */
  function ShownBy(claim: Claim): CallStatus {
    if claim.UserClaim? && claim.decision == Approved then Running else Refused
  }

  lemma ClaimWritesCall(s: State, op: Op, id: Uuid, earlier: Option<Claim>)
    requires Sound(s) && Legal(s, op) && id in s.approvals && Records(s.approvals[id], earlier)
    requires ClaimAfter(s, op, id, earlier).Some? && ClaimAfter(s, op, id, earlier) != earlier
    ensures var t := Step(s, op);
            id in t.approvals && t.approvals[id].call == s.approvals[id].call && t.approvals[id].call in t.calls &&
            t.calls[t.approvals[id].call].status == ShownBy(ClaimAfter(s, op, id, earlier).value)
  {
  }

  lemma OthersSpareCall(s: State, op: Op, id: Uuid, earlier: Option<Claim>)
    requires Sound(s) && Legal(s, op) && id in s.approvals && Records(s.approvals[id], earlier) && earlier.Some?
    requires ClaimAfter(s, op, id, earlier) == earlier && !Overwrites(s, op, id)
    ensures var t := Step(s, op);
            id in t.approvals && t.approvals[id].call == s.approvals[id].call && t.approvals[id].call in t.calls &&
            t.calls[t.approvals[id].call].status == s.calls[s.approvals[id].call].status
  {
  }

  /**
    Over every legal run: while an approval's last claim stands and no report and no new question has written its
    call, the call runs if a user approved it, and is refused if it was denied or expired.
   */
  lemma {:induction false} CallFollowsItsClaim(owners: map<Uuid, Uuid>, ops: seq<Op>, id: Uuid)
    requires LegalRun(owners, ops) && ClaimShows(owners, ops, id)
    ensures var s := Run(owners, ops);
            && id in s.approvals && s.approvals[id].call in s.calls && LastClaim(owners, ops, id).Some?
            && s.calls[s.approvals[id].call].status == ShownBy(LastClaim(owners, ops, id).value)
  {
    var before, op := ops[..|ops| - 1], ops[|ops| - 1];
    var s := Run(owners, before);
    AlwaysCoupled(owners, before);
    ClaimsAreRecorded(owners, before, id);
    var earlier := LastClaim(owners, before, id);
    hide Sound, Legal, Step, Records, ClaimAfter, Overwrites;
    if LastClaim(owners, ops, id) == earlier {
      CallFollowsItsClaim(owners, before, id);
      OthersSpareCall(s, op, id, earlier);
    } else {
      ClaimWritesCall(s, op, id, earlier);
    }
  }
}
