/** The ordered event log of a work run: numbering, duplicate suppression and cursor resume (db/work_repository.py). */
module WorkEvents {
  import opened Prelude
  import opened Sequences

  datatype Draft = Draft(run: Uuid, kind: string, message: Option<string>, payload: string, provider: Option<string>)

  datatype Event = Event(number: int, body: Draft)

  datatype Run = Run(owner: Uuid, next: int)

  /** Rows are kept in insertion order; no function here deletes one. */
  datatype State = State(runs: map<Uuid, Run>, rows: seq<Event>)

  datatype AppendError = RunNotFound | IntegrityViolation

  /** What the partial unique index on (run, provider event id) forbids. */
  predicate Twins(a: Draft, b: Draft) {
    a.run == b.run && a.provider == b.provider && a.provider.Some?
  }

  predicate HasTwin(rows: seq<Event>, d: Draft) {
    exists e :: e in rows && Twins(e.body, d)
  }

  /** What the unique constraint on (run, sequence number) forbids. */
  predicate Taken(rows: seq<Event>, run: Uuid, number: int) {
    exists e :: e in rows && e.body.run == run && e.number == number
  }

  function InRun(run: Uuid): Event -> bool {
    (e: Event) => e.body.run == run
  }

  function After(number: int): Event -> bool {
    (e: Event) => e.number > number
  }

  function InRunAfter(run: Uuid, number: int): Event -> bool {
    (e: Event) => e.body.run == run && e.number > number
  }

  function ByNumber(): (Event, Event) -> bool {
    (a: Event, b: Event) => a.number <= b.number
  }

  function History(rows: seq<Event>, run: Uuid): seq<Event> {
    Filter(rows, InRun(run))
  }

  /** Events are numbered 1, 2, 3, ... and `next` is the first number not yet given out. */
  ghost predicate GapFree(h: seq<Event>, next: int) {
    |h| == next - 1 && forall i :: 0 <= i < |h| ==> h[i].number == i + 1
  }

  ghost predicate ProviderIdsUnique(rows: seq<Event>) {
    forall i, j :: 0 <= i < j < |rows| ==> !Twins(rows[i].body, rows[j].body)
  }

  ghost predicate Sound(s: State) {
    && (forall e :: e in s.rows ==> e.body.run in s.runs)
    && (forall run :: run in s.runs ==> GapFree(History(s.rows, run), s.runs[run].next))
    && ProviderIdsUnique(s.rows)
  }

  predicate Visible(s: State, run: Uuid, user: Uuid) {
    run in s.runs && s.runs[run].owner == user
  }

  /** The events of a run that a user may read. */
  function Readable(s: State, run: Uuid, user: Uuid): seq<Event> {
    if Visible(s, run, user) then History(s.rows, run) else []
  }

  function Min(a: int, b: int): int {
    if a <= b then a else b
  }

  /** A contiguous stretch of at most `limit` events, starting just past number `after`. */
  function Stretch(h: seq<Event>, after: int, limit: nat): seq<Event> {
    var from := if after < 0 then 0 else Min(after, |h|);
    h[from..Min(from + limit, |h|)]
  }

  function Accepted(s: State, d: Draft): bool {
    d.run in s.runs && !HasTwin(s.rows, d) && !Taken(s.rows, d.run, s.runs[d.run].next)
  }

  function Append(s: State, d: Draft): State {
    if Accepted(s, d) then
      State(s.runs[d.run := s.runs[d.run].(next := s.runs[d.run].next + 1)], s.rows + [Event(s.runs[d.run].next, d)])
    else s
  }

  function NewRun(s: State, run: Uuid, owner: Uuid): State {
    if run in s.runs then s else s.(runs := s.runs[run := Run(owner, 1)])
  }

  class EventStore {
    var runs: map<Uuid, Run>
    var rows: seq<Event>

    constructor ()
      ensures Contents() == State(map[], [])
    {
      runs, rows := map[], [];
    }

    function Contents(): State
      reads this
    {
      State(runs, rows)
    }

    method CreateRun(run: Uuid, owner: Uuid)
      modifies this
      ensures Contents() == NewRun(old(Contents()), run, owner)
    {
      if run !in runs { runs := runs[run := Run(owner, 1)]; }
    }

    /**
      A duplicate is reported with the row it repeats, and nothing changes. An empty provider id skips the
      duplicate look-up and meets the index instead.
     */
    method AppendWorkEvent(d: Draft) returns (r: Result<(Event, bool), AppendError>)
      requires Sound(Contents())
      modifies this
      ensures Contents() == Append(old(Contents()), d)
      ensures r == Err(RunNotFound) <==> d.run !in old(runs)
      ensures r == Err(IntegrityViolation) <==> d.run in old(runs) && HasTwin(old(rows), d) && d.provider == Some("")
      ensures r.Ok? ==> r.value.0 in rows && (r.value.1 <==> !HasTwin(old(rows), d))
      ensures r.Ok? && r.value.1 ==> r.value.0 == Event(old(runs)[d.run].next, d)
      ensures r.Ok? && !r.value.1 ==> Twins(r.value.0.body, d) && r.value.0 in old(rows)
    {
      if d.run !in runs { return Err(RunNotFound); }
      NextNumberIsFree(Contents(), d.run);
      if d.provider.Some? && d.provider.value != "" {
        if e :| e in rows && e.body.run == d.run && e.body.provider == d.provider {
          assert Twins(e.body, d);
          return Ok((e, false));
        }
        assert !HasTwin(rows, d);
      }
      var sequence := runs[d.run].next;
      if HasTwin(rows, d) { return Err(IntegrityViolation); }
      var inserted := Event(sequence, d);
      rows := rows + [inserted];
      runs := runs[d.run := runs[d.run].(next := sequence + 1)];
      r := Ok((inserted, true));
    }

    /** The filtered, sorted and limited query is one contiguous stretch of the run's history. */
    method ListWorkEventsAfterSequence(run: Uuid, user: Uuid, after: int, limit: nat) returns (page: seq<Event>)
      requires Sound(Contents())
      ensures page == Stretch(Readable(Contents(), run, user), after, limit)
    {
      if !Visible(Contents(), run, user) { return []; }
      assert run in runs;
      hide Sound, Filter, StableSort, Visible, Stretch, History;
      var sorted := StableSort(Filter(rows, InRunAfter(run, after)), ByNumber());
      page := if |sorted| <= limit then sorted else sorted[..limit];
      QueryIsASuffix(Contents(), run, after);
      SuffixIsAStretch(Readable(Contents(), run, user), after, limit);
    }
  }

  // -- the log ---------------------------------------------------------------------------------------

  lemma NextNumberIsFree(s: State, run: Uuid)
    requires Sound(s) && run in s.runs
    ensures !Taken(s.rows, run, s.runs[run].next)
  {
  }

  /** An append adds one event at the end of its own run's history and touches no other history. */
  lemma AppendExtendsHistory(s: State, d: Draft, run: Uuid)
    requires Accepted(s, d)
    ensures History(Append(s, d).rows, run) ==
            History(s.rows, run) + (if run == d.run then [Event(s.runs[run].next, d)] else [])
  {
    FilterConcat(s.rows, [Event(s.runs[d.run].next, d)], InRun(run));
  }

  /** Numbers stay gap-free and provider ids unique, whatever is appended. */
  lemma AppendKeepsSound(s: State, d: Draft)
    requires Sound(s)
    ensures Sound(Append(s, d))
  {
    if Accepted(s, d) {
      var t := Append(s, d);
      forall run | run in t.runs ensures GapFree(History(t.rows, run), t.runs[run].next) {
        AppendExtendsHistory(s, d, run);
      }
      forall i, j | 0 <= i < j < |t.rows| ensures !Twins(t.rows[i].body, t.rows[j].body) {
        assert s.rows[i] in s.rows;
      }
    }
  }

  lemma {:induction false} NoRowsNoHistory(rows: seq<Event>, run: Uuid)
    requires forall e :: e in rows ==> e.body.run != run
    ensures History(rows, run) == []
  {
    if rows != [] { NoRowsNoHistory(rows[1..], run); }
  }

  /** A new run starts with an empty history and number 1; every history and every owner there was stays. */
  lemma NewRunKeepsSound(s: State, run: Uuid, owner: Uuid)
    requires Sound(s)
    ensures Sound(NewRun(s, run, owner))
    ensures run !in s.runs ==>
              Readable(NewRun(s, run, owner), run, owner) == [] && NewRun(s, run, owner).runs[run].next == 1
    ensures forall x, user :: x in s.runs ==> Readable(NewRun(s, run, owner), x, user) == Readable(s, x, user)
  {
    if run !in s.runs {
      NoRowsNoHistory(s.rows, run);
    }
  }

  lemma {:induction false} FilterTwice(rows: seq<Event>, run: Uuid, after: int)
    ensures Filter(rows, InRunAfter(run, after)) == Filter(History(rows, run), After(after))
  {
    if rows != [] {
      FilterTwice(rows[1..], run, after);
      if InRun(run)(rows[0]) {
        assert History(rows, run)[1..] == History(rows[1..], run);
      }
    }
  }

  lemma {:induction false} AfterIsASuffix(h: seq<Event>, first: int, after: int)
    requires forall i :: 0 <= i < |h| ==> h[i].number == first + i
    ensures Filter(h, After(after)) == if after < first then h
            else if after - first < |h| then h[after - first + 1..] else []
  {
    if h != [] {
      AfterIsASuffix(h[1..], first + 1, after);
      assert h == [h[0]] + h[1..];
    }
  }

  /** Filtering and sorting the table gives the end of the run's history, past the given number. */
  lemma QueryIsASuffix(s: State, run: Uuid, after: int)
    requires Sound(s) && run in s.runs
    ensures var h := History(s.rows, run);
            StableSort(Filter(s.rows, InRunAfter(run, after)), ByNumber()) ==
              h[if after < 0 then 0 else Min(after, |h|)..]
  {
    var h := History(s.rows, run);
    FilterTwice(s.rows, run, after);
    AfterIsASuffix(h, 1, after);
    var from := if after < 0 then 0 else Min(after, |h|);
    hide Filter, StableSort, ProviderIdsUnique;
    assert Filter(s.rows, InRunAfter(run, after)) == h[from..];
    StableSortOfSorted(h[from..], ByNumber());
  }

  lemma SuffixIsAStretch(h: seq<Event>, after: int, limit: nat)
    ensures var rest := h[if after < 0 then 0 else Min(after, |h|)..];
            (if |rest| <= limit then rest else rest[..limit]) == Stretch(h, after, limit)
  {
  }

  // -- a reader that resumes from its cursor ---------------------------------------------------------

  datatype Reader = Reader(cursor: int, seen: seq<Event>)

  datatype Op =
    | Start(run: Uuid, owner: Uuid)
    | Emit(d: Draft)
    | Poll(limit: nat)

  datatype World = World(s: State, reader: Reader)

  /** Fetch the page past the cursor; the cursor moves to the last number fetched. */
  function Polled(s: State, r: Reader, run: Uuid, user: Uuid, limit: nat): Reader {
    var page := Stretch(Readable(s, run, user), r.cursor, limit);
    if page == [] then r else Reader(page[|page| - 1].number, r.seen + page)
  }

  function Step(w: World, run: Uuid, user: Uuid, op: Op): World {
    match op
    case Start(id, owner) => w.(s := NewRun(w.s, id, owner))
    case Emit(d) => w.(s := Append(w.s, d))
    case Poll(limit) => w.(reader := Polled(w.s, w.reader, run, user, limit))
  }

  function Execute(run: Uuid, user: Uuid, ops: seq<Op>): World {
    if ops == [] then World(State(map[], []), Reader(0, []))
    else Step(Execute(run, user, ops[..|ops| - 1]), run, user, ops[|ops| - 1])
  }

  /** The reader has seen a beginning of the history, each event once and in order, and resumes right after it. */
  ghost predicate InStep(w: World, run: Uuid, user: Uuid) {
    var h := Readable(w.s, run, user);
    |w.reader.seen| <= |h| && w.reader.seen == h[..|w.reader.seen|] && w.reader.cursor == |w.reader.seen|
  }

  lemma PollKeepsInStep(w: World, run: Uuid, user: Uuid, limit: nat)
    requires Sound(w.s) && InStep(w, run, user)
    ensures InStep(Step(w, run, user, Poll(limit)), run, user)
    ensures |Step(w, run, user, Poll(limit)).reader.seen| ==
            Min(|w.reader.seen| + limit, |Readable(w.s, run, user)|)
  {
    var h := Readable(w.s, run, user);
    var n := |w.reader.seen|;
    var to := Min(n + limit, |h|);
    assert Stretch(h, w.reader.cursor, limit) == h[n..to];
    assert h[..n] + h[n..to] == h[..to];
    if n < to {
      assert h[n..to][to - n - 1] == h[to - 1];
    }
  }

  /** Every history is gap-free and the reader is in step, after any interleaving of new runs, events and polls. */
  lemma {:induction false} ReaderMissesAndRepeatsNothing(run: Uuid, user: Uuid, ops: seq<Op>)
    ensures Sound(Execute(run, user, ops).s)
    ensures InStep(Execute(run, user, ops), run, user)
  {
    if ops != [] {
      var before := Execute(run, user, ops[..|ops| - 1]);
      ReaderMissesAndRepeatsNothing(run, user, ops[..|ops| - 1]);
      match ops[|ops| - 1]
      case Start(id, owner) =>
        NewRunKeepsSound(before.s, id, owner);
      case Emit(d) =>
        AppendKeepsSound(before.s, d);
        if Accepted(before.s, d) { AppendExtendsHistory(before.s, d, run); }
      case Poll(limit) =>
        PollKeepsInStep(before, run, user, limit);
    }
  }

  function Sum(limits: seq<nat>): nat {
    if limits == [] then 0 else limits[0] + Sum(limits[1..])
  }

  function PollAll(w: World, run: Uuid, user: Uuid, limits: seq<nat>): World
    decreases |limits|
  {
    if limits == [] then w else PollAll(Step(w, run, user, Poll(limits[0])), run, user, limits[1..])
  }

  lemma {:induction false} PollAllFromInStep(w: World, run: Uuid, user: Uuid, limits: seq<nat>)
    requires Sound(w.s) && InStep(w, run, user)
    ensures var later := PollAll(w, run, user, limits);
            var h := Readable(w.s, run, user);
            && later.s == w.s && InStep(later, run, user)
            && |later.reader.seen| == Min(|w.reader.seen| + Sum(limits), |h|)
    decreases |limits|
  {
    if limits != [] {
      PollKeepsInStep(w, run, user, limits[0]);
      PollAllFromInStep(Step(w, run, user, Poll(limits[0])), run, user, limits[1..]);
    }
  }

  /** Polls that together allow enough room bring the reader to the end, however the room is divided. */
  lemma PollsReachTheEnd(run: Uuid, user: Uuid, ops: seq<Op>, limits: seq<nat>)
    ensures var w := Execute(run, user, ops);
            var h := Readable(w.s, run, user);
            PollAll(w, run, user, limits).reader.seen == h[..Min(|w.reader.seen| + Sum(limits), |h|)]
  {
    hide Sound, Readable, Execute, PollAll, Sum;
    ReaderMissesAndRepeatsNothing(run, user, ops);
    PollAllFromInStep(Execute(run, user, ops), run, user, limits);
  }

  // -- who reads what, and what is refused -----------------------------------------------------------

  /** The owner reads exactly the run's rows, in the order they came; anybody else reads nothing. */
  lemma OnlyOwnersRead(s: State, run: Uuid, user: Uuid, e: Event)
    ensures e in Readable(s, run, user) <==>
            run in s.runs && s.runs[run].owner == user && e in s.rows && e.body.run == run
  {
  }

  /** An event is new unless the run is unknown or already has one with the same provider id. */
  lemma AppendIff(s: State, d: Draft)
    requires Sound(s)
    ensures var repeated := d.provider.Some? &&
                            exists e :: e in s.rows && e.body.run == d.run && e.body.provider == d.provider;
            if d.run in s.runs && !repeated then
              && Append(s, d).rows == s.rows + [Event(s.runs[d.run].next, d)]
              && Append(s, d).runs == s.runs[d.run := Run(s.runs[d.run].owner, s.runs[d.run].next + 1)]
            else Append(s, d) == s
  {
    if d.run in s.runs { NextNumberIsFree(s, d.run); }
    if e :| e in s.rows && Twins(e.body, d) { assert HasTwin(s.rows, d); }
    hide Sound;
  }

  /** A new run belongs to its owner and starts at number 1; a known one is left alone. */
  lemma NewRunWrites(s: State, run: Uuid, owner: Uuid)
    ensures NewRun(s, run, owner).rows == s.rows
    ensures NewRun(s, run, owner).runs == if run in s.runs then s.runs else s.runs[run := Run(owner, 1)]
  {
  }
}
