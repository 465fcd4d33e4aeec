/**
  Approvals coupled to tool calls: claims by a user or by the clock, and their compensation
  (db/work_repository.py).
 */
module WorkApprovals {
  import opened Prelude

  datatype CallStatus = Requested | Running | AwaitingApproval | Succeeded | Failed | Refused

  datatype Call = Call(run: Uuid, provider: Option<string>, status: CallStatus, completedAt: Option<Time>)

  datatype Decision = Pending | Approved | Denied | Expired

  datatype Approval = Approval(
    run: Uuid,
    call: Uuid,
    requestedAt: Time,
    status: Decision,
    decidedAt: Option<Time>,
    decidedBy: Option<Uuid>)

  /** `owners` maps a run to the user whose session it belongs to. */
  datatype State = State(owners: map<Uuid, Uuid>, calls: map<Uuid, Call>, approvals: map<Uuid, Approval>)

  datatype DecideError = NotFound | AlreadyResolved

  predicate Owns(s: State, run: Uuid, user: Uuid) {
    run in s.owners && s.owners[run] == user
  }

  /** The partial unique index on (run, provider call id). */
  predicate SameProviderCall(c: Call, run: Uuid, provider: Option<string>) {
    provider.Some? && c.run == run && c.provider == provider
  }

  ghost predicate ReferencesHold(s: State) {
    forall a :: a in s.approvals ==> s.approvals[a].call in s.calls
  }

  ghost predicate ProviderCallsUnique(s: State) {
    forall c, d :: c in s.calls && d in s.calls && SameProviderCall(s.calls[d], s.calls[c].run, s.calls[c].provider) ==>
        c == d
  }

  /** An approval is pending exactly when its tool call awaits approval. */
  ghost predicate Coupled(s: State) {
    forall a :: a in s.approvals && s.approvals[a].call in s.calls ==>
      (s.approvals[a].status == Pending <==> s.calls[s.approvals[a].call].status == AwaitingApproval)
  }

  predicate HasApproval(s: State, call: Uuid) {
    exists a :: a in s.approvals && s.approvals[a].call == call
  }

  ghost predicate OneApprovalPerCall(s: State) {
    forall a, b :: a in s.approvals && b in s.approvals && s.approvals[a].call == s.approvals[b].call ==> a == b
  }

  ghost predicate PendingIsUndecided(s: State) {
    forall a :: a in s.approvals && s.approvals[a].status == Pending ==>
      s.approvals[a].decidedAt.None? && s.approvals[a].decidedBy.None?
  }

  ghost predicate Sound(s: State) {
    ReferencesHold(s) && ProviderCallsUnique(s) && Coupled(s) && OneApprovalPerCall(s) && PendingIsUndecided(s)
  }

  // -- the steps -------------------------------------------------------------------------------------

  predicate HasProviderCall(s: State, run: Uuid, provider: Option<string>) {
    exists c :: c in s.calls && SameProviderCall(s.calls[c], run, provider)
  }

  function NewCall(s: State, newId: Uuid, run: Uuid, provider: Option<string>, status: CallStatus): State {
    if HasProviderCall(s, run, provider) then s
    else s.(calls := s.calls[newId := Call(run, provider, status, None)])
  }

  function NewApproval(s: State, newId: Uuid, call: Uuid, run: Uuid, now: Time): State {
    if call !in s.calls then s
    else s.(calls := s.calls[call := s.calls[call].(status := AwaitingApproval)],
            approvals := s.approvals[newId := Approval(run, call, now, Pending, None, None)])
  }

  /** A call's progress as the provider reports it, by provider call id and without a look at approvals. */
  function Progress(s: State, run: Uuid, provider: string, status: CallStatus, now: Time): State {
    s.(calls := map c | c in s.calls ::
         if SameProviderCall(s.calls[c], run, Some(provider)) then Progressed(s.calls[c], status, now) else s.calls[c])
  }

  function Progressed(c: Call, status: CallStatus, now: Time): Call {
    if status in {Succeeded, Failed, Refused} then c.(status := status, completedAt := Some(now))
      else c.(status := status)
  }

  predicate CanDecide(s: State, id: Uuid, user: Uuid) {
    id in s.approvals && Owns(s, s.approvals[id].run, user) && s.approvals[id].status == Pending
  }

  /** Write an approval row and, when it is there, the row of its call. */
  function Write(s: State, id: Uuid, approval: Approval, call: Call -> Call): State {
    s.(approvals := s.approvals[id := approval],
       calls := if approval.call in s.calls then s.calls[approval.call := call(s.calls[approval.call])] else s.calls)
  }

  function Decide(s: State, id: Uuid, user: Uuid, decision: Decision, now: Time): State {
    if CanDecide(s, id, user) then
      Write(s, id, s.approvals[id].(status := decision, decidedAt := Some(now), decidedBy := Some(user)),
            (c: Call) => c.(status := if decision == Approved then Running else Refused))
    else s
  }

  predicate Stale(s: State, id: Uuid, run: Uuid, user: Uuid, before: Time) {
    && id in s.approvals && s.approvals[id].run == run && s.approvals[id].status == Pending
    && s.approvals[id].requestedAt <= before && Owns(s, run, user)
  }

  function AllStale(s: State, run: Uuid, user: Uuid, before: Time): set<Uuid> {
    set a | a in s.approvals && Stale(s, a, run, user, before)
  }

  predicate NotYounger(s: State, a: Uuid, b: Uuid) {
    a in s.approvals && b in s.approvals && s.approvals[a].requestedAt <= s.approvals[b].requestedAt
  }

  predicate Blocked(s: State, c: Uuid, run: Uuid, user: Uuid, before: Time) {
    exists a :: a in s.approvals && Stale(s, a, run, user, before) && s.approvals[a].call == c
  }

  function ExpiredAt(a: Approval, now: Time): Approval {
    a.(status := Expired, decidedAt := Some(now), decidedBy := None)
  }

  function RefusedAt(c: Call, now: Time): Call {
    c.(status := Refused, completedAt := Some(now))
  }

  function Expire(s: State, run: Uuid, user: Uuid, before: Time, now: Time): State {
    s.(approvals := map a | a in s.approvals ::
         if Stale(s, a, run, user, before) then ExpiredAt(s.approvals[a], now) else s.approvals[a],
       calls := map c | c in s.calls ::
         if Blocked(s, c, run, user, before) then RefusedAt(s.calls[c], now) else s.calls[c])
  }

  predicate CanReopenExpired(s: State, id: Uuid) {
    id in s.approvals && s.approvals[id].status == Expired && s.approvals[id].decidedBy.None?
  }

  function ReopenExpired(s: State, id: Uuid): State {
    if CanReopenExpired(s, id) then
      Write(s, id, s.approvals[id].(status := Pending, decidedAt := None),
            (c: Call) => c.(status := AwaitingApproval, completedAt := None))
    else s
  }

  predicate CanReopen(s: State, id: Uuid, user: Uuid, decision: Decision) {
    id in s.approvals && s.approvals[id].status == decision && s.approvals[id].decidedBy == Some(user)
  }

  function Reopen(s: State, id: Uuid, user: Uuid, decision: Decision): State {
    if CanReopen(s, id, user, decision) then
      Write(s, id, s.approvals[id].(status := Pending, decidedAt := None, decidedBy := None),
            (c: Call) => c.(status := AwaitingApproval))
    else s
  }

  class ApprovalStore {
    const owners: map<Uuid, Uuid>
    var calls: map<Uuid, Call>
    var approvals: map<Uuid, Approval>

    constructor (owners: map<Uuid, Uuid>)
      ensures Contents() == State(owners, map[], map[])
    {
      this.owners := owners;
      calls, approvals := map[], map[];
    }

    function Contents(): State
      reads this
    {
      State(owners, calls, approvals)
    }

    /** A repeated provider call id returns the call already there; an empty one meets the index instead. */
    method CreateWorkToolCall(newId: Uuid, run: Uuid, provider: Option<string>, status: CallStatus)
      returns (r: Option<Uuid>)
      modifies this`calls
      ensures Contents() == NewCall(old(Contents()), newId, run, provider, status)
      ensures r.Some? ==> r.value in calls
      ensures r == None <==> provider == Some("") && HasProviderCall(old(Contents()), run, provider)
      ensures r.Some? && provider.Some? ==> SameProviderCall(calls[r.value], run, provider)
      ensures !HasProviderCall(old(Contents()), run, provider) ==> r == Some(newId)
    {
      if c :| c in calls && SameProviderCall(calls[c], run, provider) {
        if provider == Some("") { return None; }
        return Some(c);
      }
      calls := calls[newId := Call(run, provider, status, None)];
      r := Some(newId);
    }

    /** Without its call, the foreign key refuses the approval. */
    method CreateApprovalForToolCall(newId: Uuid, call: Uuid, run: Uuid, now: Time) returns (ok: bool)
      modifies this`calls, this`approvals
      ensures Contents() == NewApproval(old(Contents()), newId, call, run, now) && (ok <==> call in old(calls))
    {
      ok := call in calls;
      if !ok { return; }
      calls := calls[call := calls[call].(status := AwaitingApproval)];
      approvals := approvals[newId := Approval(run, call, now, Pending, None, None)];
    }

    method CreateToolCallAndApproval(newCall: Uuid, newApproval: Uuid, run: Uuid, provider: Option<string>, now: Time)
      returns (r: Option<Uuid>)
      modifies this`calls, this`approvals
      ensures r.Some? ==> r.value in NewCall(old(Contents()), newCall, run, provider, AwaitingApproval).calls
      ensures r.Some? ==>
                Contents() == NewApproval(NewCall(old(Contents()), newCall, run, provider, AwaitingApproval),
                                          newApproval, r.value, run, now)
      ensures r.None? ==> Contents() == old(Contents())
    {
      r := CreateWorkToolCall(newCall, run, provider, AwaitingApproval);
      if r.Some? { var ok := CreateApprovalForToolCall(newApproval, r.value, run, now); }
    }

    method UpdateWorkToolCallStatusByProviderId(run: Uuid, provider: string, status: CallStatus, now: Time)
      modifies this`calls
      ensures Contents() == Progress(old(Contents()), run, provider, status, now)
    {
      calls := map c | c in calls ::
        if SameProviderCall(calls[c], run, Some(provider)) then Progressed(calls[c], status, now) else calls[c];
    }

    method DecideApproval(id: Uuid, user: Uuid, decision: Decision, now: Time)
      returns (r: Result<Approval, DecideError>)
      modifies this`calls, this`approvals
      ensures Contents() == Decide(old(Contents()), id, user, decision, now)
      ensures r == Err(NotFound) <==> !(id in old(approvals) && Owns(old(Contents()), old(approvals)[id].run, user))
      ensures r == Err(AlreadyResolved) <==>
              id in old(approvals) && Owns(old(Contents()), old(approvals)[id].run, user) &&
                old(approvals)[id].status != Pending
      ensures r.Ok? ==> id in approvals && r.value == approvals[id]
    {
      if id !in approvals || !Owns(Contents(), approvals[id].run, user) { return Err(NotFound); }
      var approval := approvals[id];
      if approval.status != Pending { return Err(AlreadyResolved); }
      var updated := approval.(status := decision, decidedAt := Some(now), decidedBy := Some(user));
      approvals := approvals[id := updated];
      if approval.call in calls {
        calls := calls[approval.call := calls[approval.call].(status := if decision == Approved then Running
                                                              else Refused)];
      }
      r := Ok(updated);
    }

    method ClaimByTimeout(id: Uuid, now: Time)
      requires id in approvals
      modifies this`calls, this`approvals
      ensures Contents() == Write(old(Contents()), id, ExpiredAt(old(approvals)[id], now),
                                  (c: Call) => RefusedAt(c, now))
      ensures approvals.Keys == old(approvals.Keys)
    {
      approvals := approvals[id := ExpiredAt(approvals[id], now)];
      var call := approvals[id].call;
      if call in calls { calls := calls[call := RefusedAt(calls[call], now)]; }
    }

    /** Claim every stale approval of the run, oldest request first. */
    method ExpirePendingApprovalsForRun(run: Uuid, user: Uuid, before: Time, now: Time) returns (expired: seq<Uuid>)
      modifies this`calls, this`approvals
      ensures Contents() == Expire(old(Contents()), run, user, before, now)
      ensures forall a :: a in expired <==> Stale(old(Contents()), a, run, user, before)
      ensures forall i, j :: 0 <= i < j < |expired| ==> expired[i] != expired[j]
      ensures forall i, j :: 0 <= i < j < |expired| ==> NotYounger(old(Contents()), expired[i], expired[j])
    {
      ghost var s := Contents();
      var todo := AllStale(Contents(), run, user, before);
      ghost var stale := todo;
      expired := [];
      assert Sweeping(s, Contents(), stale, todo, expired, now);
      hide Sweeping, Write, Stale, Expire, AllStale, NotYounger;
      while todo != {}
        invariant todo <= approvals.Keys && Sweeping(s, Contents(), stale, todo, expired, now)
      {
        ghost var oldest := Oldest(Contents(), todo);
        var id :| id in todo && forall a :: a in todo ==> NotYounger(Contents(), id, a);
        SweepNext(s, Contents(), stale, todo, expired, id, now);
        ClaimByTimeout(id, now);
        expired := expired + [id];
        todo := todo - {id};
      }
      SweepingIsDone(s, Contents(), run, user, before, expired, now);
    }

    method ReopenExpiredApproval(id: Uuid) returns (reopened: bool)
      modifies this`calls, this`approvals
      ensures Contents() == ReopenExpired(old(Contents()), id)
      ensures reopened <==> CanReopenExpired(old(Contents()), id)
    {
      if !(id in approvals && approvals[id].status == Expired && approvals[id].decidedBy == None) { return false; }
      approvals := approvals[id := approvals[id].(status := Pending, decidedAt := None)];
      var call := approvals[id].call;
      if call in calls { calls := calls[call := calls[call].(status := AwaitingApproval, completedAt := None)]; }
      reopened := true;
    }

    method ReopenApproval(id: Uuid, user: Uuid, decision: Decision) returns (reopened: bool)
      modifies this`calls, this`approvals
      ensures Contents() == Reopen(old(Contents()), id, user, decision)
      ensures reopened <==> CanReopen(old(Contents()), id, user, decision)
    {
      if !(id in approvals && approvals[id].status == decision &&
           approvals[id].decidedBy == Some(user)) { return false; }
      approvals := approvals[id := approvals[id].(status := Pending, decidedAt := None, decidedBy := None)];
      var call := approvals[id].call;
      if call in calls { calls := calls[call := calls[call].(status := AwaitingApproval)]; }
      reopened := true;
    }
  }

  lemma {:induction false} Oldest(s: State, ids: set<Uuid>) returns (least: Uuid)
    requires ids != {} && ids <= s.approvals.Keys
    ensures least in ids && forall a :: a in ids ==> NotYounger(s, least, a)
  {
    least :| least in ids;
    var rest := ids - {least};
    if rest != {} {
      var other := Oldest(s, rest);
      assert forall a :: a in ids ==> a == least || a in rest;
      if s.approvals[other].requestedAt < s.approvals[least].requestedAt { least := other; }
    } else {
      assert ids == {least};
    }
  }

  /** What has been taken is in order of request, and older than whatever is left. */
  ghost predicate OldestTaken(s: State, taken: seq<Uuid>, todo: set<Uuid>) {
    && (forall i, a :: 0 <= i < |taken| && a in todo ==> NotYounger(s, taken[i], a))
    && (forall i, j :: 0 <= i < j < |taken| ==> NotYounger(s, taken[i], taken[j]))
  }

  lemma TakeOldest(s: State, t: State, taken: seq<Uuid>, todo: set<Uuid>, done: set<Uuid>, id: Uuid, now: Time)
    requires OldestTaken(s, taken, todo) && Swept(s, t, done, now) && todo !! done && todo <= s.approvals.Keys
    requires id in todo && forall a :: a in todo ==> NotYounger(t, id, a)
    ensures OldestTaken(s, taken + [id], todo - {id})
    ensures todo <= t.approvals.Keys
  {
  }

  predicate Claimed(s: State, done: set<Uuid>, c: Uuid) {
    exists a :: a in done && a in s.approvals && s.approvals[a].call == c
  }

  /** The sweep half way: the approvals in `done` and their calls are claimed, nothing else is touched. */
  ghost predicate Swept(s: State, t: State, done: set<Uuid>, now: Time) {
    && t.owners == s.owners && t.approvals.Keys == s.approvals.Keys && t.calls.Keys == s.calls.Keys
    && (forall a :: a in s.approvals ==>
          t.approvals[a] == if a in done then ExpiredAt(s.approvals[a], now) else s.approvals[a])
    && (forall c :: c in s.calls ==>
          t.calls[c] == if Claimed(s, done, c) then RefusedAt(s.calls[c], now) else s.calls[c])
  }

  /** The loop so far: of the stale approvals all but `todo` are claimed, each once, the oldest first. */
  ghost predicate Sweeping(s: State, t: State, stale: set<Uuid>, todo: set<Uuid>, expired: seq<Uuid>, now: Time) {
    && todo <= stale <= s.approvals.Keys && Swept(s, t, stale - todo, now) && OldestTaken(s, expired, todo)
    && (forall a :: a in expired <==> a in stale - todo)
    && (forall i, j :: 0 <= i < j < |expired| ==> expired[i] != expired[j])
  }

  lemma SweepNext(s: State, t: State, stale: set<Uuid>, todo: set<Uuid>, expired: seq<Uuid>, id: Uuid, now: Time)
    requires Sweeping(s, t, stale, todo, expired, now)
    requires id in todo && forall a :: a in todo ==> NotYounger(t, id, a)
    ensures id in t.approvals
    ensures Sweeping(s, Write(t, id, ExpiredAt(t.approvals[id], now), (c: Call) => RefusedAt(c, now)),
                     stale, todo - {id}, expired + [id], now)
  {
    TakeOldest(s, t, expired, todo, stale - todo, id, now);
    SweepOne(s, t, stale - todo, id, now);
    assert stale - (todo - {id}) == (stale - todo) + {id};
    hide Swept, OldestTaken, Write, NotYounger;
  }

  lemma SweepingIsDone(s: State, t: State, run: Uuid, user: Uuid, before: Time, expired: seq<Uuid>, now: Time)
    requires Sweeping(s, t, AllStale(s, run, user, before), {}, expired, now)
    ensures t == Expire(s, run, user, before, now)
    ensures forall a :: a in expired <==> Stale(s, a, run, user, before)
    ensures forall i, j :: 0 <= i < j < |expired| ==> expired[i] != expired[j]
    ensures forall i, j :: 0 <= i < j < |expired| ==> NotYounger(s, expired[i], expired[j])
  {
    var stale := AllStale(s, run, user, before);
    assert stale - {} == stale;
    SweptAll(s, t, run, user, before, now);
  }

  lemma SweepOne(s: State, t: State, done: set<Uuid>, id: Uuid, now: Time)
    requires Swept(s, t, done, now) && id in s.approvals && id !in done
    ensures Swept(s, Write(t, id, ExpiredAt(t.approvals[id], now), (c: Call) => RefusedAt(c, now)), done + {id}, now)
  {
  }

  lemma SweptAll(s: State, t: State, run: Uuid, user: Uuid, before: Time, now: Time)
    requires Swept(s, t, AllStale(s, run, user, before), now)
    ensures t == Expire(s, run, user, before, now)
  {
  }

  // -- what each step keeps --------------------------------------------------------------------------

  datatype Op =
    | Open(newId: Uuid, run: Uuid, provider: Option<string>, status: CallStatus)
    | Ask(newId: Uuid, call: Uuid, run: Uuid, now: Time)
    | ByUser(id: Uuid, user: Uuid, decision: Decision, now: Time)
    | ByTimeout(run: Uuid, user: Uuid, before: Time, now: Time)
    | UndoTimeout(id: Uuid)
    | UndoUser(id: Uuid, user: Uuid, decision: Decision)
    | Report(run: Uuid, providerCall: string, status: CallStatus, now: Time)

  function Step(s: State, op: Op): State {
    match op
    case Open(newId, run, provider, status) => NewCall(s, newId, run, provider, status)
    case Ask(newId, call, run, now) => NewApproval(s, newId, call, run, now)
    case ByUser(id, user, decision, now) => Decide(s, id, user, decision, now)
    case ByTimeout(run, user, before, now) => Expire(s, run, user, before, now)
    case UndoTimeout(id) => ReopenExpired(s, id)
    case UndoUser(id, user, decision) => Reopen(s, id, user, decision)
    case Report(run, provider, status, now) => Progress(s, run, provider, status, now)
  }

  /** New ids, one approval per call, a decision that decides, and progress only on calls that do not await one. */
  predicate Legal(s: State, op: Op) {
    match op
    case Open(newId, _, _, _) => newId !in s.calls
    case Ask(newId, call, _, _) => newId !in s.approvals && !HasApproval(s, call)
    case ByUser(_, _, decision, _) => decision != Pending
    case Report(run, provider, status, _) =>
      status != AwaitingApproval &&
      forall c :: c in s.calls && SameProviderCall(s.calls[c], run, Some(provider)) ==>
          s.calls[c].status != AwaitingApproval
    case _ => true
  }

  lemma ExpireKeepsCoupled(s: State, run: Uuid, user: Uuid, before: Time, now: Time)
    requires ReferencesHold(s) && Coupled(s) && OneApprovalPerCall(s)
    ensures Coupled(Expire(s, run, user, before, now))
  {
  }

  lemma ExpireKeepsSound(s: State, run: Uuid, user: Uuid, before: Time, now: Time)
    requires Sound(s)
    ensures Sound(Expire(s, run, user, before, now))
  {
    ExpireKeepsCoupled(s, run, user, before, now);
    StepKeepsProviderCallsUnique(s, ByTimeout(run, user, before, now));
    ExpireKeepsApprovals(s, run, user, before, now);
    hide ProviderCallsUnique, Coupled, ReferencesHold, OneApprovalPerCall, PendingIsUndecided, Expire;
  }

  lemma ExpireKeepsApprovals(s: State, run: Uuid, user: Uuid, before: Time, now: Time)
    requires ReferencesHold(s) && OneApprovalPerCall(s) && PendingIsUndecided(s)
    ensures var t := Expire(s, run, user, before, now);
            ReferencesHold(t) && OneApprovalPerCall(t) && PendingIsUndecided(t)
  {
  }

  lemma CreationKeepsSound(s: State, op: Op)
    requires Sound(s) && Legal(s, op) && (op.Open? || op.Ask?)
    ensures Sound(Step(s, op))
  {
    StepKeepsProviderCallsUnique(s, op);
    hide ProviderCallsUnique;
  }

  /** A claim or a reopen writes one approval and its call, which no other approval shares. */
  lemma RowStepKeepsSound(s: State, op: Op)
    requires Sound(s) && Legal(s, op) && (op.ByUser? || op.UndoTimeout? || op.UndoUser?)
    ensures Sound(Step(s, op))
  {
    StepKeepsProviderCallsUnique(s, op);
    hide ProviderCallsUnique;
  }

  lemma ReportKeepsSound(s: State, op: Op)
    requires Sound(s) && Legal(s, op) && op.Report?
    ensures Sound(Step(s, op))
  {
    StepKeepsProviderCallsUnique(s, op);
    hide ProviderCallsUnique, OneApprovalPerCall;
  }

  /** Every call keeps its run and provider id. */
  ghost predicate SameIdentities(s: State, t: State) {
    t.calls.Keys == s.calls.Keys &&
    forall c :: c in s.calls ==> t.calls[c].run == s.calls[c].run && t.calls[c].provider == s.calls[c].provider
  }

  lemma SameIdentitiesStayUnique(s: State, t: State)
    requires ProviderCallsUnique(s) && SameIdentities(s, t)
    ensures ProviderCallsUnique(t)
  {
  }

  lemma StepKeepsIdentities(s: State, op: Op)
    requires !op.Open?
    ensures SameIdentities(s, Step(s, op))
  {
  }

  lemma StepKeepsProviderCallsUnique(s: State, op: Op)
    requires ProviderCallsUnique(s) && Legal(s, op)
    ensures ProviderCallsUnique(Step(s, op))
  {
    if !op.Open? {
      hide ProviderCallsUnique, Step, SameIdentities;
      StepKeepsIdentities(s, op);
      SameIdentitiesStayUnique(s, Step(s, op));
    }
  }

  lemma StepKeepsSound(s: State, op: Op)
    requires Sound(s) && Legal(s, op)
    ensures Sound(Step(s, op))
  {
    match op
    case ByTimeout(run, user, before, now) => ExpireKeepsSound(s, run, user, before, now);
    case Report(_, _, _, _) => ReportKeepsSound(s, op);
    case Open(_, _, _, _) => CreationKeepsSound(s, op);
    case Ask(_, _, _, _) => CreationKeepsSound(s, op);
    case _ => RowStepKeepsSound(s, op);
  }

  function Run(owners: map<Uuid, Uuid>, ops: seq<Op>): State {
    if ops == [] then State(owners, map[], map[]) else Step(Run(owners, ops[..|ops| - 1]), ops[|ops| - 1])
  }

  predicate LegalRun(owners: map<Uuid, Uuid>, ops: seq<Op>) {
    ops != [] ==> LegalRun(owners, ops[..|ops| - 1]) && Legal(Run(owners, ops[..|ops| - 1]), ops[|ops| - 1])
  }

  /** In every reachable state an approval is pending exactly when its call awaits approval. */
  lemma {:induction false} AlwaysCoupled(owners: map<Uuid, Uuid>, ops: seq<Op>)
    requires LegalRun(owners, ops)
    ensures Sound(Run(owners, ops))
  {
    if ops != [] {
      AlwaysCoupled(owners, ops[..|ops| - 1]);
      hide Sound;
      StepKeepsSound(Run(owners, ops[..|ops| - 1]), ops[|ops| - 1]);
    }
  }

  // -- who claimed it last ---------------------------------------------------------------------------

  datatype Claim = UserClaim(user: Uuid, decision: Decision, at: Time) | TimeoutClaim(at: Time)

  /** The last claim of an approval in a run that no reopen has taken back. */
  function LastClaim(owners: map<Uuid, Uuid>, ops: seq<Op>, id: Uuid): Option<Claim> {
    if ops == [] then None
    else ClaimAfter(Run(owners, ops[..|ops| - 1]), ops[|ops| - 1], id, LastClaim(owners, ops[..|ops| - 1], id))
  }

  function ClaimAfter(s: State, op: Op, id: Uuid, earlier: Option<Claim>): Option<Claim> {
    match op
    case ByUser(target, user, decision, now) =>
      if target == id && CanDecide(s, id, user) then Some(UserClaim(user, decision, now)) else earlier
    case ByTimeout(run, user, before, now) => if Stale(s, id, run, user, before) then Some(TimeoutClaim(now))
      else earlier
    case UndoTimeout(target) => if target == id && CanReopenExpired(s, id) then None else earlier
    case UndoUser(target, user, decision) => if target == id && CanReopen(s, id, user, decision) then None else earlier
    case _ => earlier
  }

  /** The row says who claimed it, and when. */
  ghost predicate Records(a: Approval, claim: Option<Claim>) {
    match claim
    case None => a.status == Pending && a.decidedAt == None && a.decidedBy == None
    case Some(UserClaim(user, decision, at)) =>
      decision != Pending && a.status == decision && a.decidedAt == Some(at) && a.decidedBy == Some(user)
    case Some(TimeoutClaim(at)) => a.status == Expired && a.decidedAt == Some(at) && a.decidedBy == None
  }

  lemma StepRecords(s: State, op: Op, id: Uuid, claim: Option<Claim>)
    requires Legal(s, op)
    requires if id in s.approvals then Records(s.approvals[id], claim) else claim == None
    ensures var t := Step(s, op);
            if id in t.approvals then Records(t.approvals[id], ClaimAfter(s, op, id, claim))
              else ClaimAfter(s, op, id, claim) == None
  {
  }

  lemma {:induction false} ClaimsAreRecorded(owners: map<Uuid, Uuid>, ops: seq<Op>, id: Uuid)
    requires LegalRun(owners, ops)
    ensures var s := Run(owners, ops);
            if id in s.approvals then Records(s.approvals[id], LastClaim(owners, ops, id))
              else LastClaim(owners, ops, id) == None
  {
    if ops != [] {
      ClaimsAreRecorded(owners, ops[..|ops| - 1], id);
      hide Records, Step, Legal, ClaimAfter;
      StepRecords(Run(owners, ops[..|ops| - 1]), ops[|ops| - 1], id, LastClaim(owners, ops[..|ops| - 1], id));
    }
  }

  /**
    A reopen takes effect exactly on its own kind of claim: a user's reopen only where that user made that
    decision last, the automatic one only where the clock did. Neither ever undoes the other.
   */
  lemma ReopenOnlyUndoesItsOwnClaim(owners: map<Uuid, Uuid>, ops: seq<Op>, id: Uuid, user: Uuid, decision: Decision)
    requires LegalRun(owners, ops)
    ensures CanReopenExpired(Run(owners, ops), id) <==>
            LastClaim(owners, ops, id).Some? && LastClaim(owners, ops, id).value.TimeoutClaim?
    ensures CanReopen(Run(owners, ops), id, user, decision) <==>
            && LastClaim(owners, ops, id).Some? && LastClaim(owners, ops, id).value.UserClaim?
            && LastClaim(owners, ops, id).value.user == user && LastClaim(owners, ops, id).value.decision == decision
  {
    ClaimsAreRecorded(owners, ops, id);
    hide Run, LastClaim;
  }

  // -- exactly what breaks the coupling --------------------------------------------------------------

  /** The row has no other approval for its call. */
  predicate Unshared(s: State, id: Uuid) {
    id in s.approvals && forall a :: a in s.approvals && s.approvals[a].call == s.approvals[id].call ==> a == id
  }

  predicate Reported(s: State, a: Uuid, run: Uuid, provider: string) {
    && a in s.approvals && s.approvals[a].call in s.calls
    && SameProviderCall(s.calls[s.approvals[a].call], run, Some(provider))
  }

  predicate FreshIds(s: State, op: Op) {
    match op
    case Open(newId, _, _, _) => newId !in s.calls
    case Ask(newId, _, _, _) => newId !in s.approvals
    case _ => true
  }

  /** What the caller of each step can look up first. */
  predicate Safe(s: State, op: Op) {
    match op
    case Open(_, _, _, _) => true
    case Ask(_, call, _, _) => forall a :: a in s.approvals && s.approvals[a].call == call ==>
        s.approvals[a].status == Pending
    case ByUser(id, user, decision, _) => CanDecide(s, id, user) ==> decision != Pending && Unshared(s, id)
    case ByTimeout(run, user, before, _) =>
      forall a, b :: a in s.approvals && b in s.approvals && s.approvals[a].call == s.approvals[b].call ==>
        (Stale(s, a, run, user, before) <==> Stale(s, b, run, user, before))
    case UndoTimeout(id) => CanReopenExpired(s, id) ==> Unshared(s, id)
    case UndoUser(id, user, decision) => CanReopen(s, id, user, decision) && decision != Pending ==> Unshared(s, id)
    case Report(run, provider, status, _) =>
      forall a :: a in s.approvals && Reported(s, a, run, provider) ==>
          (s.approvals[a].status == Pending <==> status == AwaitingApproval)
  }

  /**
    Asking again about a call keeps the coupling exactly when every earlier approval of that call is still pending,
    which a caller can check first.
   */
  lemma AskKeepsCouplingIff(s: State, newId: Uuid, call: Uuid, run: Uuid, now: Time)
    requires ReferencesHold(s) && Coupled(s) && newId !in s.approvals && call in s.calls
    ensures Coupled(NewApproval(s, newId, call, run, now)) <==>
            forall a :: a in s.approvals && s.approvals[a].call == call ==> s.approvals[a].status == Pending
  {
    var t := NewApproval(s, newId, call, run, now);
    if Coupled(t) {
      forall a | a in s.approvals && s.approvals[a].call == call ensures s.approvals[a].status == Pending {
        assert t.approvals[a] == s.approvals[a];
      }
    }
  }

  /** A decision keeps the coupling exactly when it decides and no other approval shares the call. */
  lemma DecideKeepsCouplingIff(s: State, id: Uuid, user: Uuid, decision: Decision, now: Time)
    requires ReferencesHold(s) && Coupled(s) && CanDecide(s, id, user)
    ensures Coupled(Decide(s, id, user, decision, now)) <==> decision != Pending && Unshared(s, id)
  {
    var t := Decide(s, id, user, decision, now);
    assert id in t.approvals;
    assert forall a :: a in s.approvals && a != id ==> a in t.approvals && t.approvals[a] == s.approvals[a];
  }

  /** A reopened approval's call awaits approval again, which no other resolved approval of the call agrees with. */
  lemma ReopenKeepsCouplingIff(s: State, op: Op)
    requires ReferencesHold(s) && Coupled(s) && (op.UndoTimeout? || op.UndoUser?)
    ensures Coupled(Step(s, op)) <==> Safe(s, op)
  {
    var t := Step(s, op);
    assert op.id in s.approvals ==> op.id in t.approvals;
    assert forall a :: a in s.approvals && a != op.id ==> a in t.approvals && t.approvals[a] == s.approvals[a];
  }

  /**
    A report of progress keeps the coupling exactly when it says of each such approval's call what the approval
    says.
   */
  lemma ReportKeepsCouplingIff(s: State, run: Uuid, provider: string, status: CallStatus, now: Time)
    requires ReferencesHold(s) && Coupled(s)
    ensures Coupled(Progress(s, run, provider, status, now)) <==>
            forall a :: a in s.approvals && Reported(s, a, run, provider) ==>
                (s.approvals[a].status == Pending <==> status == AwaitingApproval)
  {
    var t := Progress(s, run, provider, status, now);
    assert forall a :: a in s.approvals ==>
      t.calls[s.approvals[a].call] ==
      if Reported(s, a, run, provider) then Progressed(s.calls[s.approvals[a].call], status, now)
      else s.calls[s.approvals[a].call];
  }

  /** A sweep keeps the coupling exactly when no call has a stale approval beside one it leaves alone. */
  lemma SweepKeepsCouplingIff(s: State, run: Uuid, user: Uuid, before: Time, now: Time)
    requires ReferencesHold(s) && Coupled(s)
    ensures Coupled(Expire(s, run, user, before, now)) <==> Safe(s, ByTimeout(run, user, before, now))
  {
    var t := Expire(s, run, user, before, now);
    forall a | a in s.approvals
      ensures t.calls[s.approvals[a].call].status ==
              if Blocked(s, s.approvals[a].call, run, user, before) then Refused
                else s.calls[s.approvals[a].call].status
    {
    }
    if Coupled(t) {
      forall a, b | a in s.approvals && b in s.approvals && s.approvals[a].call == s.approvals[b].call &&
        Stale(s, a, run, user, before)
        ensures Stale(s, b, run, user, before)
      {
        assert Blocked(s, s.approvals[b].call, run, user, before);
        assert t.approvals[b].status != Pending;
      }
    }
  }

  lemma StepKeepsCouplingIff(s: State, op: Op)
    requires ReferencesHold(s) && Coupled(s) && FreshIds(s, op)
    ensures Coupled(Step(s, op)) <==> Safe(s, op)
  {
    hide Coupled;
    match op
    case Open(newId, run, provider, status) => OpenKeepsCoupling(s, op);
    case Ask(newId, call, run, now) => if call in s.calls { AskKeepsCouplingIff(s, newId, call, run, now); }
    case ByUser(id, user, decision, now) =>
      if CanDecide(s, id, user) { DecideKeepsCouplingIff(s, id, user, decision, now); }
    case ByTimeout(run, user, before, now) => SweepKeepsCouplingIff(s, run, user, before, now);
    case Report(run, provider, status, now) => ReportKeepsCouplingIff(s, run, provider, status, now);
    case _ => ReopenKeepsCouplingIff(s, op);
  }

  lemma OpenKeepsCoupling(s: State, op: Op)
    requires ReferencesHold(s) && Coupled(s) && FreshIds(s, op) && op.Open?
    ensures Coupled(Step(s, op))
  {
  }

  lemma StepKeepsReferences(s: State, op: Op)
    requires ReferencesHold(s)
    ensures ReferencesHold(Step(s, op))
  {
  }

  predicate FreshRun(owners: map<Uuid, Uuid>, ops: seq<Op>) {
    ops != [] ==> FreshRun(owners, ops[..|ops| - 1]) && FreshIds(Run(owners, ops[..|ops| - 1]), ops[|ops| - 1])
  }

  lemma {:induction false} ReferencesAlwaysHold(owners: map<Uuid, Uuid>, ops: seq<Op>)
    ensures ReferencesHold(Run(owners, ops))
  {
    if ops != [] {
      ReferencesAlwaysHold(owners, ops[..|ops| - 1]);
      StepKeepsReferences(Run(owners, ops[..|ops| - 1]), ops[|ops| - 1]);
    }
  }

  ghost predicate CoupledThroughout(owners: map<Uuid, Uuid>, ops: seq<Op>) {
    Coupled(Run(owners, ops)) && (ops != [] ==> CoupledThroughout(owners, ops[..|ops| - 1]))
  }

  predicate SafeThroughout(owners: map<Uuid, Uuid>, ops: seq<Op>) {
    ops != [] ==> SafeThroughout(owners, ops[..|ops| - 1]) && Safe(Run(owners, ops[..|ops| - 1]), ops[|ops| - 1])
  }

  /**
    Any run at all, given fresh ids: the coupling holds all along exactly when every step was safe when it was
    taken.
   */
  lemma {:induction false} CoupledThroughoutIff(owners: map<Uuid, Uuid>, ops: seq<Op>)
    requires FreshRun(owners, ops)
    ensures CoupledThroughout(owners, ops) <==> SafeThroughout(owners, ops)
  {
    if ops != [] {
      var front := ops[..|ops| - 1];
      CoupledThroughoutIff(owners, front);
      ReferencesAlwaysHold(owners, front);
      hide Step, Safe, FreshIds, Coupled, ReferencesHold;
      if CoupledThroughout(owners, front) {
        StepKeepsCouplingIff(Run(owners, front), ops[|ops| - 1]);
      }
    }
  }

  // Three short runs: user 1 owns run 2, call 3 has the provider id "p".

  lemma RunOn(owners: map<Uuid, Uuid>, ops: seq<Op>, op: Op)
    ensures Run(owners, ops + [op]) == Step(Run(owners, ops), op)
    ensures FreshRun(owners, ops + [op]) <==> FreshRun(owners, ops) && FreshIds(Run(owners, ops), op)
    ensures LegalRun(owners, ops + [op]) <==> LegalRun(owners, ops) && Legal(Run(owners, ops), op)
  {
    assert (ops + [op])[..|ops|] == ops;
  }

  /** A call reported finished while its approval is pending: the service reports without looking. */
  lemma ReportCanBreakTheCoupling()
    ensures var ops := [Open(3, 2, Some("p"), Running), Ask(4, 3, 2, 0), Report(2, "p", Succeeded, 1)];
            FreshRun(map[2 := 1], ops) && !Coupled(Run(map[2 := 1], ops))
  {
    var owners: map<Uuid, Uuid> := map[2 := 1];
    var a, b, c := Open(3, 2, Some("p"), Running), Ask(4, 3, 2, 0), Report(2, "p", Succeeded, 1);
    RunOn(owners, [], a);
    RunOn(owners, [a], b);
    RunOn(owners, [a, b], c);
    assert [] + [a] == [a] && [a] + [b] == [a, b] && [a, b] + [c] == [a, b, c];
    assert 4 in Run(owners, [a, b, c]).approvals;
  }

  /** An approved call asked about again, as the service does for a running call without a pending approval. */
  lemma SecondAskCanBreakTheCoupling()
    ensures var ops := [Open(3, 2, Some("p"), Running), Ask(4, 3, 2, 0), ByUser(4, 1, Approved, 1), Ask(5, 3, 2, 2)];
            FreshRun(map[2 := 1], ops) && !Coupled(Run(map[2 := 1], ops))
  {
    var owners: map<Uuid, Uuid> := map[2 := 1];
    var a, b, c, d := Open(3, 2, Some("p"), Running), Ask(4, 3, 2, 0), ByUser(4, 1, Approved, 1), Ask(5, 3, 2, 2);
    RunOn(owners, [], a);
    RunOn(owners, [a], b);
    RunOn(owners, [a, b], c);
    RunOn(owners, [a, b, c], d);
    assert [] + [a] == [a] && [a] + [b] == [a, b] && [a, b] + [c] == [a, b, c] && [a, b, c] + [d] == [a, b, c, d];
    assert 4 in Run(owners, [a, b, c, d]).approvals;
  }

  /** An approval is pending although the tool has run and its call carries a completion time. */
  function PendingOverAFinishedCall(completedAt: Option<Time>): State {
    State(map[2 := 1], map[3 := Call(2, Some("p"), AwaitingApproval, completedAt)],
          map[4 := Approval(2, 3, 0, Pending, None, None)])
  }

  /** The user approves and the tool runs, but confirming raises, so that the service reopens the approval. */
  lemma ReopenedCallCanBeFinished()
    ensures var ops := [Open(3, 2, Some("p"), Running), Ask(4, 3, 2, 0), ByUser(4, 1, Approved, 1),
                        Report(2, "p", Succeeded, 2), UndoUser(4, 1, Approved)];
            LegalRun(map[2 := 1], ops) && Run(map[2 := 1], ops) == PendingOverAFinishedCall(Some(2))
  {
    var owners: map<Uuid, Uuid> := map[2 := 1];
    var a, b, c := Open(3, 2, Some("p"), Running), Ask(4, 3, 2, 0), ByUser(4, 1, Approved, 1);
    var d, e := Report(2, "p", Succeeded, 2), UndoUser(4, 1, Approved);
    ApprovedRun();
    RunOn(owners, [a, b, c], d);
    RunOn(owners, [a, b, c, d], e);
    assert [a, b, c] + [d] == [a, b, c, d] && [a, b, c, d] + [e] == [a, b, c, d, e];
    hide Run, LegalRun, Step;
    ReportedAndReopened(Run(owners, [a, b, c]));
  }

  lemma ReportedAndReopened(s: State)
    requires s == State(map[2 := 1], map[3 := Call(2, Some("p"), Running, None)],
                        map[4 := Approval(2, 3, 0, Approved, Some(1), Some(1))])
    ensures Legal(s, Report(2, "p", Succeeded, 2)) && Legal(Progress(s, 2, "p", Succeeded, 2), UndoUser(4, 1, Approved))
    ensures Step(s, Report(2, "p", Succeeded, 2)) == Progress(s, 2, "p", Succeeded, 2)
    ensures Step(Progress(s, 2, "p", Succeeded, 2), UndoUser(4, 1, Approved)) == PendingOverAFinishedCall(Some(2))
  {
    var t := Progress(s, 2, "p", Succeeded, 2);
    assert t.calls == map[3 := Call(2, Some("p"), Succeeded, Some(2))];
    assert CanReopen(t, 4, 1, Approved);
  }

  lemma ApprovedRun()
    ensures var ops := [Open(3, 2, Some("p"), Running), Ask(4, 3, 2, 0), ByUser(4, 1, Approved, 1)];
            LegalRun(map[2 := 1], ops) &&
            Run(map[2 := 1], ops) == State(map[2 := 1], map[3 := Call(2, Some("p"), Running, None)],
                                           map[4 := Approval(2, 3, 0, Approved, Some(1), Some(1))])
  {
    var owners: map<Uuid, Uuid> := map[2 := 1];
    var a, b, c := Open(3, 2, Some("p"), Running), Ask(4, 3, 2, 0), ByUser(4, 1, Approved, 1);
    RunOn(owners, [], a);
    RunOn(owners, [a], b);
    RunOn(owners, [a, b], c);
    assert [] + [a] == [a] && [a] + [b] == [a, b] && [a, b] + [c] == [a, b, c];
    assert LegalRun(owners, []) && Run(owners, []) == State(owners, map[], map[]);
    hide Run, LegalRun;
    assert Run(owners, [a]).calls == map[3 := Call(2, Some("p"), Running, None)];
    assert Run(owners, [a, b]).approvals == map[4 := Approval(2, 3, 0, Pending, None, None)];
  }

  /** Expiring and reopening such an approval loses when the call finished. */
  lemma SweepCanLoseACompletion()
    ensures var swept := Expire(PendingOverAFinishedCall(Some(2)), 2, 1, 2, 5);
            ReopenExpired(swept, 4) == PendingOverAFinishedCall(None)
  {
    var s := PendingOverAFinishedCall(Some(2));
    var swept := Expire(s, 2, 1, 2, 5);
    assert Stale(s, 4, 2, 1, 2) && Blocked(s, 3, 2, 1, 2);
    assert swept.approvals == map[4 := Approval(2, 3, 0, Expired, Some(5), None)];
    assert swept.calls == map[3 := Call(2, Some("p"), Refused, Some(5))];
  }

  predicate Awaits(s: State, call: Uuid) {
    call in s.calls && s.calls[call].status == AwaitingApproval
  }

  /** A user's claim and its own reopen restore both rows to the letter, exactly when the call awaited approval. */
  lemma UserClaimThenReopenRestoresIff(s: State, id: Uuid, user: Uuid, decision: Decision, now: Time)
    requires ReferencesHold(s) && PendingIsUndecided(s) && CanDecide(s, id, user)
    ensures Reopen(Decide(s, id, user, decision, now), id, user, decision) == s <==> Awaits(s, s.approvals[id].call)
  {
    var back := Reopen(Decide(s, id, user, decision, now), id, user, decision);
    assert back.approvals == s.approvals;
    if Awaits(s, s.approvals[id].call) { assert back.calls == s.calls; }
  }

  function ReopenAllExpired(s: State, ids: seq<Uuid>): State {
    if ids == [] then s else ReopenExpired(ReopenAllExpired(s, ids[..|ids| - 1]), ids[|ids| - 1])
  }

  /** An approval nobody has decided. */
  function Undecided(a: Approval): Approval {
    a.(status := Pending, decidedAt := None, decidedBy := None)
  }

  /** A call as a reopened sweep leaves it: awaiting approval, and without a completion time. */
  function Waiting(c: Call): Call {
    c.(status := AwaitingApproval, completedAt := None)
  }

  /** What a sweep with outcome `e`, then reopening `ids`, leaves. */
  ghost predicate PartlyReopened(s: State, e: State, t: State, ids: seq<Uuid>) {
    && t.owners == s.owners && t.approvals.Keys == s.approvals.Keys == e.approvals.Keys
    && t.calls.Keys == s.calls.Keys == e.calls.Keys
    && (forall a :: a in s.approvals ==>
          t.approvals[a] == if a in ids then Undecided(s.approvals[a]) else e.approvals[a])
    && (forall a :: a in s.approvals && s.approvals[a].call in s.calls ==>
          t.calls[s.approvals[a].call] ==
          if a in ids then Waiting(s.calls[s.approvals[a].call]) else e.calls[s.approvals[a].call])
    && (forall c :: c in s.calls && !HasApproval(s, c) ==> t.calls[c] == s.calls[c])
  }

  /** Undecided, and its call awaits approval and carries no completion time. */
  predicate Restorable(s: State, id: Uuid) {
    && id in s.approvals && s.approvals[id].decidedAt.None? && s.approvals[id].decidedBy.None?
    && Awaits(s, s.approvals[id].call) && s.calls[s.approvals[id].call].completedAt.None?
  }

  lemma OneMoreReopened(s: State, e: State, t: State, u: State, ids: seq<Uuid>, id: Uuid)
    requires PartlyReopened(s, e, t, ids) && id in s.approvals && s.approvals[id].call in s.calls
    requires forall a :: a in s.approvals && s.approvals[a].call == s.approvals[id].call ==> a == id
    requires u.owners == t.owners && u.approvals == t.approvals[id := Undecided(s.approvals[id])]
    requires var c := s.approvals[id].call; u.calls == t.calls[c := Waiting(s.calls[c])]
    ensures PartlyReopened(s, e, u, ids + [id])
  {
    assert forall a :: a in ids + [id] <==> a in ids || a == id;
    forall c | c in s.calls && !HasApproval(s, c) ensures u.calls[c] == s.calls[c] {
      assert c != s.approvals[id].call;
    }
  }

  lemma ReopenOne(s: State, e: State, t: State, ids: seq<Uuid>, id: Uuid, now: Time)
    requires OneApprovalPerCall(s) && PartlyReopened(s, e, t, ids)
    requires ClaimedRow(s, e, id, now)
    ensures PartlyReopened(s, e, ReopenExpired(t, id), ids + [id])
  {
    RowsOf(s, e, t, ids, id);
    hide PartlyReopened;
    if id in ids {
      ReopenedAlready(s, e, t, ids, id);
    } else {
      var call := s.approvals[id].call;
      assert t.approvals[id].(status := Pending, decidedAt := None) == Undecided(s.approvals[id]);
      assert Waiting(t.calls[call]) == Waiting(s.calls[call]);
      OneMoreReopened(s, e, t, ReopenExpired(t, id), ids, id);
    }
  }

  lemma ReopenedAlready(s: State, e: State, t: State, ids: seq<Uuid>, id: Uuid)
    requires PartlyReopened(s, e, t, ids) && id in ids
    ensures PartlyReopened(s, e, t, ids + [id])
  {
  }

  /** The two rows of one approval in a partly reopened sweep. */
  lemma RowsOf(s: State, e: State, t: State, ids: seq<Uuid>, id: Uuid)
    requires PartlyReopened(s, e, t, ids) && id in s.approvals && s.approvals[id].call in s.calls
    ensures var call := s.approvals[id].call;
            && id in t.approvals
            && t.approvals[id] == (if id in ids then Undecided(s.approvals[id]) else e.approvals[id])
            && call in t.calls && t.calls[call] == (if id in ids then Waiting(s.calls[call]) else e.calls[call])
  {
  }

  lemma SweptRow(s: State, run: Uuid, user: Uuid, before: Time, now: Time, id: Uuid)
    requires ReferencesHold(s) && Stale(s, id, run, user, before)
    ensures ClaimedRow(s, Expire(s, run, user, before, now), id, now)
  {
  }

  /** Every id names a pending approval that `e` has claimed, with its call. */
  ghost predicate ClaimedIn(s: State, e: State, ids: seq<Uuid>, now: Time) {
    forall i :: 0 <= i < |ids| ==> ClaimedRow(s, e, ids[i], now)
  }

  predicate ClaimedRow(s: State, e: State, id: Uuid, now: Time) {
    && id in s.approvals && id in e.approvals && s.approvals[id].call in s.calls && s.approvals[id].call in e.calls
    && s.approvals[id].status == Pending && e.approvals[id] == ExpiredAt(s.approvals[id], now)
    && e.calls[s.approvals[id].call] == RefusedAt(s.calls[s.approvals[id].call], now)
  }

  lemma {:induction false} ReopeningUndoesTheSweep(s: State, e: State, now: Time, ids: seq<Uuid>)
    requires OneApprovalPerCall(s) && PartlyReopened(s, e, e, []) && ClaimedIn(s, e, ids, now)
    ensures PartlyReopened(s, e, ReopenAllExpired(e, ids), ids)
  {
    if ids != [] {
      var front, last := ids[..|ids| - 1], ids[|ids| - 1];
      hide OneApprovalPerCall, PartlyReopened, ReopenExpired, ClaimedRow;
      assert ClaimedIn(s, e, front, now) && front + [last] == ids;
      ReopeningUndoesTheSweep(s, e, now, front);
      ReopenOne(s, e, ReopenAllExpired(e, front), front, last, now);
    }
  }

  /**
    A sweep followed by reopening all it expired restores every row to the letter, exactly when every approval it
    claimed was undecided and its call awaited approval without a completion time: reopening makes it so.
   */
  lemma SweepThenReopenRestoresIff(s: State, run: Uuid, user: Uuid, before: Time, now: Time, expired: seq<Uuid>)
    requires ReferencesHold(s) && OneApprovalPerCall(s)
    requires forall a :: a in expired <==> Stale(s, a, run, user, before)
    ensures ReopenAllExpired(Expire(s, run, user, before, now), expired) == s <==>
            forall a :: a in expired ==> Restorable(s, a)
  {
    var e := Expire(s, run, user, before, now);
    SweptRows(s, run, user, before, now, expired);
    hide ReferencesHold, OneApprovalPerCall, ReopenExpired, Expire, Stale, Blocked, PartlyReopened, ClaimedRow,
         UntouchedRow, Restorable;
    ReopeningUndoesTheSweep(s, e, now, expired);
    RestoredRows(s, e, ReopenAllExpired(e, expired), expired);
  }

  lemma SweptRows(s: State, run: Uuid, user: Uuid, before: Time, now: Time, expired: seq<Uuid>)
    requires ReferencesHold(s) && OneApprovalPerCall(s)
    requires forall a :: a in expired <==> Stale(s, a, run, user, before)
    ensures var e := Expire(s, run, user, before, now);
            && PartlyReopened(s, e, e, []) && ClaimedIn(s, e, expired, now)
            && (forall a :: a in expired ==>
                  a in s.approvals && s.approvals[a].call in s.calls && s.approvals[a].status == Pending)
            && (forall a :: a in s.approvals && a !in expired ==> UntouchedRow(s, e, a))
  {
    var e := Expire(s, run, user, before, now);
    forall a | a in expired ensures ClaimedRow(s, e, a, now) {
      SweptRow(s, run, user, before, now, a);
    }
    UnsweptRows(s, run, user, before, now);
    hide ReferencesHold, OneApprovalPerCall, Expire, Stale;
  }

  lemma UnsweptRows(s: State, run: Uuid, user: Uuid, before: Time, now: Time)
    requires ReferencesHold(s) && OneApprovalPerCall(s)
    ensures var e := Expire(s, run, user, before, now);
            && PartlyReopened(s, e, e, [])
            && (forall a :: a in s.approvals && !Stale(s, a, run, user, before) ==> UntouchedRow(s, e, a))
  {
  }

  predicate UntouchedRow(s: State, e: State, id: Uuid) {
    && id in s.approvals && id in e.approvals && s.approvals[id].call in s.calls && s.approvals[id].call in e.calls
    && e.approvals[id] == s.approvals[id] && e.calls[s.approvals[id].call] == s.calls[s.approvals[id].call]
  }

  lemma RestoredRows(s: State, e: State, t: State, expired: seq<Uuid>)
    requires PartlyReopened(s, e, t, expired)
    requires forall a :: a in s.approvals && a !in expired ==> UntouchedRow(s, e, a)
    requires forall a :: a in expired ==>
               a in s.approvals && s.approvals[a].call in s.calls && s.approvals[a].status == Pending
    ensures t == s <==> forall a :: a in expired ==> Restorable(s, a)
  {
    if forall a :: a in expired ==> Restorable(s, a) {
      assert t.approvals == s.approvals;
      forall c | c in s.calls ensures t.calls[c] == s.calls[c] {
        if HasApproval(s, c) {
          var a :| a in s.approvals && s.approvals[a].call == c;
          assert a !in expired ==> UntouchedRow(s, e, a);
        }
      }
      assert t.calls == s.calls;
    }
  }
}
