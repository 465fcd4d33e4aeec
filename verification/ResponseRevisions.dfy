/** Regenerated responses: revision families, the latest-revision query and family deletion (db/repository.py). */
module ResponseRevisions {
  import opened Prelude

  datatype Request = Request(
    user: Uuid,
    name: string,
    group: Option<Uuid>,
    root: Option<Uuid>,
    revision: int,
    createdAt: Time)

  datatype Analysis = Analysis(user: Uuid, group: Uuid)

  /** Responses and decisions point at a request, attempts at a decision. */
  datatype Database = Database(
    requests: map<Uuid, Request>,
    responses: map<Uuid, Uuid>,
    decisions: map<Uuid, Uuid>,
    attempts: map<Uuid, Uuid>,
    analyses: map<Uuid, Analysis>)

  type Requests = map<Uuid, Request>

  /** What a regeneration carries from its read transaction to its insert transaction. */
  datatype Context = Context(user: Uuid, root: Uuid, revision: int, group: Uuid)

  /** COALESCE(response_revision_root_id, id). */
  function RootOf(id: Uuid, r: Request): Uuid {
    if r.root.Some? then r.root.value else id
  }

  predicate InFamily(requests: Requests, root: Uuid, id: Uuid) {
    id in requests && (id == root || requests[id].root == Some(root))
  }

  function Family(requests: Requests, root: Uuid): set<Uuid> {
    set id | id in requests && InFamily(requests, root, id)
  }

  /** Every root id names a row that itself has no root. */
  ghost predicate Flat(requests: Requests) {
    forall id :: id in requests && requests[id].root.Some? ==>
      requests[id].root.value in requests && requests[requests[id].root.value].root.None?
  }

  ghost predicate HasRevision(requests: Requests, family: set<Uuid>, v: int) {
    exists id :: id in family && id in requests && requests[id].revision == v
  }

  /** The rows' revisions are 1, 2, ..., one row each. */
  ghost predicate NumberedRows(requests: Requests, family: set<Uuid>) {
    && family <= requests.Keys
    && (forall id :: id in family ==> 1 <= requests[id].revision <= |family|)
    && (forall a, b :: a in family && b in family && requests[a].revision == requests[b].revision ==> a == b)
    && (forall v :: 1 <= v <= |family| ==> HasRevision(requests, family, v))
  }

  ghost predicate Numbered(requests: Requests, root: Uuid) {
    NumberedRows(requests, Family(requests, root))
  }

  ghost predicate AllNumbered(requests: Requests) {
    forall root :: root in requests && requests[root].root.None? ==> Numbered(requests, root)
  }

  /** A family belongs to one user and one group. */
  ghost predicate SameOwner(requests: Requests) {
    forall id :: id in requests && requests[id].root.Some? && requests[id].root.value in requests ==>
      requests[id].user == requests[requests[id].root.value].user &&
        requests[id].group == requests[requests[id].root.value].group
  }

  ghost predicate InTimeOrder(requests: Requests) {
    forall a, b :: a in requests && b in requests && RootOf(a, requests[a]) == RootOf(b, requests[b]) ==>
      requests[a].revision < requests[b].revision ==> requests[a].createdAt <= requests[b].createdAt
  }

  ghost predicate NoDangling(db: Database) {
    && (forall x :: x in db.responses ==> db.responses[x] in db.requests)
    && (forall x :: x in db.decisions ==> db.decisions[x] in db.requests)
    && (forall x :: x in db.attempts ==> db.attempts[x] in db.decisions)
  }

  ghost predicate Sound(db: Database) {
    Flat(db.requests) && AllNumbered(db.requests) && SameOwner(db.requests) && InTimeOrder(db.requests) &&
      NoDangling(db)
  }

  // -- inserts ---------------------------------------------------------------------------------------

  /** The foreign key on the root and the unique indexes on (logical response, revision) and on the request name. */
  predicate Insertable(requests: Requests, id: Uuid, r: Request) {
    && (r.root.Some? ==> r.root.value in requests)
    && (forall x :: x in requests ==> requests[x].name != r.name)
    && (forall x :: x in requests && RootOf(x, requests[x]) == RootOf(id, r) ==> requests[x].revision != r.revision)
  }

  function Insert(db: Database, id: Uuid, r: Request): Database {
    if Insertable(db.requests, id, r) then db.(requests := db.requests[id := r]) else db
  }

  predicate IsLatest(requests: Requests, root: Uuid, id: Uuid) {
    InFamily(requests, root, id) && forall x :: x in requests && InFamily(requests, root, x) ==>
        requests[x].revision <= requests[id].revision
  }

  ghost function LatestRow(requests: Requests, root: Uuid): (r: Option<Uuid>)
    ensures r.Some? ==> IsLatest(requests, root, r.value)
    ensures r.None? ==> forall id :: !IsLatest(requests, root, id)
  {
    if id :| IsLatest(requests, root, id) then Some(id) else None
  }

  /** max(response_revision) over the family, or 1 without rows. */
  ghost function Latest(requests: Requests, root: Uuid): int {
    var row := LatestRow(requests, root);
    if row.Some? then requests[row.value].revision else 1
  }

  lemma LatestIsTheMaximum(requests: Requests, root: Uuid, id: Uuid)
    requires IsLatest(requests, root, id)
    ensures Latest(requests, root) == requests[id].revision
  {
  }

  /** The root and next revision read for a source row, as the caller keeps them. */
  ghost function ContextFor(requests: Requests, user: Uuid, id: Uuid): Option<Context> {
    if id in requests && requests[id].user == user && requests[id].group.Some? then
      var root := RootOf(id, requests[id]);
      Some(Context(user, root, if Latest(requests, root) + 1 < 2 then 2
                   else Latest(requests, root) + 1, requests[id].group.value))
    else None
  }

  // -- deletion --------------------------------------------------------------------------------------

  function Doomed(requests: Requests, user: Uuid, id: Uuid): set<Uuid>
    requires id in requests
  {
    set x | x in Family(requests, RootOf(id, requests[id])) && x in requests && requests[x].user == user
  }

  predicate GroupIsEmpty(requests: Requests, user: Uuid, group: Uuid) {
    forall x :: x in requests ==> !(requests[x].user == user && requests[x].group == Some(group))
  }

  function DeleteEntry(db: Database, user: Uuid, id: Uuid): Database
    requires id in db.requests
  {
    var doomed := Doomed(db.requests, user, id);
    var decisions := map x | x in db.decisions && db.decisions[x] !in doomed :: db.decisions[x];
    var requests := db.requests - doomed;
    var group := db.requests[id].group;
    Database(
      requests,
      map x | x in db.responses && db.responses[x] !in doomed :: db.responses[x],
      decisions,
      map x | x in db.attempts && !(db.attempts[x] in db.decisions && db.decisions[db.attempts[x]] in doomed) ::
        db.attempts[x],
      if group.Some? && GroupIsEmpty(requests, user, group.value) then
        map x | x in db.analyses && db.analyses[x] != Analysis(user, group.value) :: db.analyses[x]
      else db.analyses)
  }

  class ResponseStore {
    var requests: Requests
    var responses: map<Uuid, Uuid>
    var decisions: map<Uuid, Uuid>
    var attempts: map<Uuid, Uuid>
    var analyses: map<Uuid, Analysis>

    constructor ()
      ensures Contents() == Database(map[], map[], map[], map[], map[])
    {
      requests, responses, decisions, attempts, analyses := map[], map[], map[], map[], map[];
    }

    function Contents(): Database
      reads this
    {
      Database(requests, responses, decisions, attempts, analyses)
    }

    /** The revision is raised to at least 1; a constraint refuses the row or it is stored as given. */
    method CreateLlmRequest(newId: Uuid, user: Uuid, name: string, group: Option<Uuid>, root: Option<Uuid>,
                            revision: int, now: Time)
      returns (ok: bool)
      modifies this`requests
      ensures var r := Request(user, name, group, root, if revision < 1 then 1 else revision, now);
              Contents() == Insert(old(Contents()), newId, r) && (ok <==> Insertable(old(requests), newId, r))
      ensures ok && newId !in old(requests) ==>
                requests[newId].revision >= 1 &&
                forall x :: x in requests && RootOf(x, requests[x]) == RootOf(newId, requests[newId]) && x != newId ==>
                  requests[x].revision != requests[newId].revision
    {
      var r := Request(user, name, group, root, if revision < 1 then 1 else revision, now);
      ok := Insertable(requests, newId, r);
      if ok { requests := requests[newId := r]; }
    }

    method ResolveRegeneration(user: Uuid, name: string) returns (c: Option<Context>)
      ensures c.Some? ==>
                exists id :: id in requests && requests[id].name == name && c == ContextFor(requests, user, id)
      ensures c.None? ==> forall id :: id in requests && requests[id].name == name ==>
                ContextFor(requests, user, id) == None
    {
      if id :| id in requests && requests[id].user == user && requests[id].name == name && requests[id].group.Some? {
        var root := RootOf(id, requests[id]);
        var latest := 1;
        if top :| top in requests && IsLatest(requests, root, top) {
          latest := requests[top].revision;
          LatestIsTheMaximum(requests, root, top);
        }
        assert latest == Latest(requests, root);
        return Some(Context(user, root, if latest + 1 < 2 then 2 else latest + 1, requests[id].group.value));
      }
      c := None;
    }

    /** Attempts, decisions, responses and requests of the family, then the group's analyses if it is empty. */
    method DeleteLlmHistoryEntry(user: Uuid, entry: Option<Uuid>) returns (deleted: bool)
      requires entry.Some? ==> entry.value in requests && requests[entry.value].user == user
      modifies this
      ensures entry.None? ==> !deleted && Contents() == old(Contents())
      ensures entry.Some? ==> deleted && Contents() == DeleteEntry(old(Contents()), user, entry.value)
    {
      if entry.None? { return false; }
      var id := entry.value;
      var doomed := Doomed(requests, user, id);
      var group := requests[id].group;
      attempts := map x | x in attempts &&
        !(attempts[x] in decisions && decisions[attempts[x]] in doomed) :: attempts[x];
      decisions := map x | x in decisions && decisions[x] !in doomed :: decisions[x];
      responses := map x | x in responses && responses[x] !in doomed :: responses[x];
      requests := requests - doomed;
      if group.Some? && GroupIsEmpty(requests, user, group.value) {
        analyses := map x | x in analyses && analyses[x] != Analysis(user, group.value) :: analyses[x];
      }
      assert id in doomed;
      deleted := true;
    }

    /**
      The latest revision of every response slot of a group, oldest slot first, plus the newest row. `rows` is what
      the database returned, in whatever order it gives rows created at the same moment with the same revision.
     */
    method GetCompareAnalysisSources(user: Uuid, group: Uuid, rows: seq<Uuid>) returns (sources: seq<Uuid>)
      requires Sound(Contents()) && QueryResult(requests, user, group, rows)
      ensures OnePerFamily(requests, user, group, sources) && OldestFirst(requests, sources)
      ensures sources == [] <==> rows == []
    {
      var current: seq<Uuid> := [];
      var seen: set<Uuid> := {};
      var n := 0;
      NothingSeen(requests, user, group, rows);
      hide Sound, FirstSeen, QueryResult, OnePerFamily, OldestFirst, RootOf, Reversed;
      while n < |rows|
        invariant n <= |rows| && FirstSeen(requests, rows, n, seen, current)
      {
        var key := RootOf(rows[n], requests[rows[n]]);
        SeeNext(requests, user, group, rows, n, seen, current);
        if key !in seen {
          seen := seen + {key};
          current := current + [rows[n]];
        }
        n := n + 1;
      }
      FirstSeenReversed(requests, rows, seen, current);
      FirstSeenAreLatest(Contents(), user, group, rows, seen, current);
      sources := Reversed(current);
    }
  }

  function Reversed(s: seq<Uuid>): (r: seq<Uuid>)
    ensures |r| == |s| && (forall k :: 0 <= k < |s| ==> r[k] == s[|s| - 1 - k])
  {
    if s == [] then [] else Reversed(s[1..]) + [s[0]]
  }

  // -- the latest-revision query ---------------------------------------------------------------------

  /** ORDER BY created_at DESC, response_revision DESC. */
  predicate NotOlder(requests: Requests, a: Uuid, b: Uuid)
    requires a in requests && b in requests
  {
    requests[b].createdAt < requests[a].createdAt ||
    (requests[b].createdAt == requests[a].createdAt && requests[b].revision <= requests[a].revision)
  }

  predicate InGroup(requests: Requests, user: Uuid, group: Uuid, id: Uuid) {
    id in requests && requests[id].user == user && requests[id].group == Some(group)
  }

  ghost predicate QueryResult(requests: Requests, user: Uuid, group: Uuid, rows: seq<Uuid>) {
    && (forall id :: id in rows <==> InGroup(requests, user, group, id))
    && (forall i :: 0 <= i < |rows| ==> rows[i] in requests)
    && (forall i, j :: 0 <= i < j < |rows| ==> NotOlder(requests, rows[i], rows[j]))
  }

  /** Exactly one row for every family of the group, the one with the family's greatest revision. */
  ghost predicate OnePerFamily(requests: Requests, user: Uuid, group: Uuid, chosen: seq<Uuid>) {
    && (forall id :: id in chosen <==>
          InGroup(requests, user, group, id) && requests[id].revision == |Family(requests, RootOf(id, requests[id]))|)
    && (forall i, j :: 0 <= i < j < |chosen| ==>
          chosen[i] in requests && chosen[j] in requests &&
            RootOf(chosen[i], requests[chosen[i]]) != RootOf(chosen[j], requests[chosen[j]]))
    && (forall id :: InGroup(requests, user, group, id) ==> Represented(requests, chosen, RootOf(id, requests[id])))
  }

  ghost predicate OldestFirst(requests: Requests, chosen: seq<Uuid>) {
    forall i, j :: 0 <= i < j < |chosen| ==>
      chosen[i] in requests && chosen[j] in requests && NotOlder(requests, chosen[j], chosen[i])
  }

  ghost predicate Represented(requests: Requests, chosen: seq<Uuid>, root: Uuid) {
    exists c :: c in chosen && c in requests && RootOf(c, requests[c]) == root
  }

  /** After n rows, `current` holds the first row of each root seen, in row order. */
  ghost predicate FirstSeen(requests: Requests, rows: seq<Uuid>, n: nat, seen: set<Uuid>, current: seq<Uuid>)
    requires n <= |rows|
  {
    && (forall i :: 0 <= i < |current| ==> current[i] in requests && RootOf(current[i], requests[current[i]]) in seen)
    && (forall root :: root in seen ==> Represented(requests, current, root))
    && (forall i, j :: 0 <= i < j < |current| ==>
          RootOf(current[i], requests[current[i]]) != RootOf(current[j], requests[current[j]]))
    && (forall i, j :: 0 <= i < j < |current| ==> NotOlder(requests, current[i], current[j]))
    && (forall i :: 0 <= i < |current| ==> current[i] in rows[..n])
    && (forall k :: 0 <= k < n ==> rows[k] in requests && RootOf(rows[k], requests[rows[k]]) in seen)
    && (forall i, k :: 0 <= i < |current| && 0 <= k < n ==>
          RootOf(rows[k], requests[rows[k]]) == RootOf(current[i], requests[current[i]]) ==>
          NotOlder(requests, current[i], rows[k]))
  }

  lemma NothingSeen(requests: Requests, user: Uuid, group: Uuid, rows: seq<Uuid>)
    requires QueryResult(requests, user, group, rows)
    ensures FirstSeen(requests, rows, 0, {}, []) && forall i :: 0 <= i < |rows| ==> rows[i] in requests
  {
  }

  lemma SeeAgain(requests: Requests, user: Uuid, group: Uuid, rows: seq<Uuid>, n: nat, seen: set<Uuid>,
                 current: seq<Uuid>)
    requires QueryResult(requests, user, group, rows) && n < |rows| && FirstSeen(requests, rows, n, seen, current)
    requires RootOf(rows[n], requests[rows[n]]) in seen
    ensures FirstSeen(requests, rows, n + 1, seen, current)
  {
  }

  lemma SeeFirst(requests: Requests, user: Uuid, group: Uuid, rows: seq<Uuid>, n: nat, seen: set<Uuid>,
                 current: seq<Uuid>)
    requires QueryResult(requests, user, group, rows) && n < |rows| && FirstSeen(requests, rows, n, seen, current)
    requires RootOf(rows[n], requests[rows[n]]) !in seen
    ensures FirstSeen(requests, rows, n + 1, seen + {RootOf(rows[n], requests[rows[n]])}, current + [rows[n]])
  {
    var key, longer := RootOf(rows[n], requests[rows[n]]), current + [rows[n]];
    forall root | root in seen + {key} ensures Represented(requests, longer, root) {
      if root in seen {
        var c :| c in current && c in requests && RootOf(c, requests[c]) == root;
        assert c in longer;
      } else {
        assert rows[n] in longer;
      }
    }
    hide Represented;
    forall i | 0 <= i < |current| ensures NotOlder(requests, current[i], rows[n]) {
      assert current[i] in rows[..n];
    }
  }

  lemma SeeNext(requests: Requests, user: Uuid, group: Uuid, rows: seq<Uuid>, n: nat, seen: set<Uuid>,
                current: seq<Uuid>)
    requires QueryResult(requests, user, group, rows) && n < |rows| && FirstSeen(requests, rows, n, seen, current)
    ensures var key := RootOf(rows[n], requests[rows[n]]);
            if key in seen then FirstSeen(requests, rows, n + 1, seen, current)
            else FirstSeen(requests, rows, n + 1, seen + {key}, current + [rows[n]])
  {
    if RootOf(rows[n], requests[rows[n]]) in seen {
      SeeAgain(requests, user, group, rows, n, seen, current);
    } else {
      SeeFirst(requests, user, group, rows, n, seen, current);
    }
    hide FirstSeen;
  }

  /** A row's family shares its user and group, so the query sees all of it. */
  lemma FamilyInGroup(db: Database, user: Uuid, group: Uuid, id: Uuid, x: Uuid)
    requires Sound(db) && InGroup(db.requests, user, group, id) && InFamily(db.requests, RootOf(id, db.requests[id]), x)
    ensures InGroup(db.requests, user, group, x) && RootOf(x, db.requests[x]) == RootOf(id, db.requests[id])
  {
  }

  lemma FirstSeenIsTop(db: Database, user: Uuid, group: Uuid, rows: seq<Uuid>, seen: set<Uuid>, current: seq<Uuid>,
                       i: nat)
    requires Sound(db) && QueryResult(db.requests, user, group, rows) &&
             FirstSeen(db.requests, rows, |rows|, seen, current)
    requires i < |current|
    ensures InGroup(db.requests, user, group, current[i])
    ensures db.requests[current[i]].revision == |Family(db.requests, RootOf(current[i], db.requests[current[i]]))|
  {
    var c := current[i];
    var root := RootOf(c, db.requests[c]);
    assert c in rows;
    var family := Family(db.requests, root);
    assert Numbered(db.requests, root) && c in family;
    assert HasRevision(db.requests, family, |family|);
    var top :| top in family && db.requests[top].revision == |family|;
    FamilyInGroup(db, user, group, c, top);
    assert top in rows;
    var k :| 0 <= k < |rows| && rows[k] == top;
    assert NotOlder(db.requests, c, rows[k]);
  }

  lemma FirstSeenReversed(requests: Requests, rows: seq<Uuid>, seen: set<Uuid>, current: seq<Uuid>)
    requires FirstSeen(requests, rows, |rows|, seen, current)
    ensures OldestFirst(requests, Reversed(current))
    ensures current == [] <==> rows == []
  {
    if rows != [] { assert Represented(requests, current, RootOf(rows[0], requests[rows[0]])); }
  }

  lemma FirstSeenAreLatest(db: Database, user: Uuid, group: Uuid, rows: seq<Uuid>, seen: set<Uuid>, current: seq<Uuid>)
    requires Sound(db) && QueryResult(db.requests, user, group, rows) &&
             FirstSeen(db.requests, rows, |rows|, seen, current)
    ensures OnePerFamily(db.requests, user, group, Reversed(current))
  {
    var requests := db.requests;
    var chosen := Reversed(current);
    assert forall i :: 0 <= i < |current| ==> current[i] == chosen[|current| - 1 - i];
    assert forall c :: c in chosen <==> c in current;
    forall i | 0 <= i < |current|
      ensures InGroup(requests, user, group, current[i])
      ensures requests[current[i]].revision == |Family(requests, RootOf(current[i], requests[current[i]]))|
    {
      FirstSeenIsTop(db, user, group, rows, seen, current, i);
    }
    forall id | InGroup(requests, user, group, id) ensures Represented(requests, chosen, RootOf(id, requests[id])) {
      assert id in rows;
      assert Represented(requests, current, RootOf(id, requests[id]));
    }
    forall id | InGroup(requests, user, group, id) &&
      requests[id].revision == |Family(requests, RootOf(id, requests[id]))|
      ensures id in chosen
    {
      var root := RootOf(id, requests[id]);
      var c :| c in chosen && c in requests && RootOf(c, requests[c]) == root;
      TopIsUnique(db, root, id, c);
    }
  }

  lemma TopIsUnique(db: Database, root: Uuid, a: Uuid, b: Uuid)
    requires Sound(db) && a in db.requests && b in db.requests
    requires RootOf(a, db.requests[a]) == root && RootOf(b, db.requests[b]) == root
    requires db.requests[a].revision == db.requests[b].revision
    ensures a == b
  {
  }

  // -- what every step keeps -------------------------------------------------------------------------

  lemma FamiliesAfterInsert(requests: Requests, id: Uuid, r: Request, root: Uuid)
    requires Flat(requests) && id !in requests && (r.root.Some? ==> r.root.value in requests && root != id)
    ensures Family(requests[id := r], root) ==
            Family(requests, root) + (if RootOf(id, r) == root then {id} else {})
  {
  }

  lemma LatestIsTheFamilySize(requests: Requests, root: Uuid)
    requires root in requests && requests[root].root.None? && Numbered(requests, root)
    ensures Latest(requests, root) == |Family(requests, root)|
  {
    var family := Family(requests, root);
    assert root in family;
    assert HasRevision(requests, family, |family|);
    var top :| top in family && requests[top].revision == |family|;
    LatestIsTheMaximum(requests, root, top);
  }

  /** Of all regenerations of one family, the index admits exactly the next revision: a racing pair cannot both win. */
  lemma OnlyTheNextRevisionIsAdmitted(db: Database, id: Uuid, r: Request)
    requires Sound(db) && r.root.Some? && r.root.value in db.requests && db.requests[r.root.value].root.None?
    requires 2 <= r.revision <= |Family(db.requests, r.root.value)| + 1
    requires forall x :: x in db.requests ==> db.requests[x].name != r.name
    ensures Insertable(db.requests, id, r) <==> r.revision == |Family(db.requests, r.root.value)| + 1
  {
    var root := r.root.value;
    var family := Family(db.requests, root);
    assert Numbered(db.requests, root);
    forall x | x in db.requests ensures RootOf(x, db.requests[x]) == root <==> x in family {
    }
    if r.revision <= |family| {
      assert HasRevision(db.requests, family, r.revision);
    }
  }

  /** What a caller brings to an insert: a first revision, or one it once read as the next of its own family. */
  predicate Legitimate(requests: Requests, r: Request) {
    && (forall x :: x in requests ==> requests[x].createdAt <= r.createdAt)
    && (r.root.None? ==> r.revision == 1)
    && (r.root.Some? ==> 2 <= r.revision)
    && (r.root.Some? && r.root.value in requests ==> Continues(requests, r.root.value, r.user, r.group, r.revision))
  }

  predicate Continues(requests: Requests, root: Uuid, user: Uuid, group: Option<Uuid>, revision: int)
    requires root in requests
  {
    && requests[root].root.None? && requests[root].user == user && requests[root].group == group
    && revision <= |Family(requests, root)| + 1
  }

  lemma SameRowsStayNumbered(requests: Requests, after: Requests, family: set<Uuid>)
    requires NumberedRows(requests, family)
    requires forall x :: x in family ==> x in after && after[x] == requests[x]
    ensures NumberedRows(after, family)
  {
    forall v | 1 <= v <= |family| ensures HasRevision(after, family, v) {
      assert HasRevision(requests, family, v);
    }
  }

  lemma NextRowStaysNumbered(requests: Requests, id: Uuid, r: Request, family: set<Uuid>)
    requires NumberedRows(requests, family) && id !in requests && r.revision == |family| + 1
    ensures NumberedRows(requests[id := r], family + {id})
  {
    var after, grown := requests[id := r], family + {id};
    forall v | 1 <= v <= |grown| ensures HasRevision(after, grown, v) {
      if v <= |family| {
        assert HasRevision(requests, family, v);
        var x :| x in family && x in requests && requests[x].revision == v;
        assert x in grown && after[x] == requests[x];
      } else {
        assert id in grown;
      }
    }
  }

  lemma FirstRowIsNumbered(requests: Requests, id: Uuid, r: Request)
    requires Flat(requests) && id !in requests && r.root.None? && r.revision == 1
    ensures Numbered(requests[id := r], id)
  {
    FamiliesAfterInsert(requests, id, r, id);
    assert Family(requests, id) == {};
    hide Family, Flat;
    NextRowStaysNumbered(requests, id, r, {});
  }

  lemma GrowingFamilyStaysNumbered(db: Database, id: Uuid, r: Request, root: Uuid)
    requires Sound(db) && id !in db.requests && Legitimate(db.requests, r) && Insertable(db.requests, id, r)
    requires root in db.requests && db.requests[root].root.None? && r.root == Some(root)
    ensures Numbered(db.requests[id := r], root)
  {
    FamiliesAfterInsert(db.requests, id, r, root);
    assert NumberedRows(db.requests, Family(db.requests, root)) by { assert Numbered(db.requests, root); }
    OnlyTheNextRevisionIsAdmitted(db, id, r);
    hide Sound, Insertable, Legitimate, Family, NumberedRows;
    NextRowStaysNumbered(db.requests, id, r, Family(db.requests, root));
  }

  lemma OtherFamilyStaysNumbered(requests: Requests, id: Uuid, r: Request, root: Uuid)
    requires Flat(requests) && id !in requests && (r.root.Some? ==> r.root.value in requests)
    requires root in requests && r.root != Some(root) && Numbered(requests, root)
    ensures Numbered(requests[id := r], root)
  {
    FamiliesAfterInsert(requests, id, r, root);
    assert Family(requests, root) <= requests.Keys;
    hide Flat, Family, NumberedRows;
    SameRowsStayNumbered(requests, requests[id := r], Family(requests, root));
  }

  lemma FamilyStaysNumbered(db: Database, id: Uuid, r: Request, root: Uuid)
    requires Sound(db) && id !in db.requests && Legitimate(db.requests, r) && Insertable(db.requests, id, r)
    requires root in db.requests && db.requests[root].root.None?
    ensures Numbered(db.requests[id := r], root)
  {
    hide Numbered, Flat, SameOwner, InTimeOrder, NoDangling, Legitimate;
    if r.root == Some(root) {
      GrowingFamilyStaysNumbered(db, id, r, root);
    } else {
      OtherFamilyStaysNumbered(db.requests, id, r, root);
    }
  }

  lemma InsertKeepsNumbered(db: Database, id: Uuid, r: Request, root: Uuid)
    requires Sound(db) && id !in db.requests && Legitimate(db.requests, r) && Insertable(db.requests, id, r)
    requires root in db.requests[id := r] && db.requests[id := r][root].root.None?
    ensures Numbered(db.requests[id := r], root)
  {
    hide AllNumbered, Numbered, Insertable, SameOwner, InTimeOrder, NoDangling;
    if root == id { FirstRowIsNumbered(db.requests, id, r); } else { FamilyStaysNumbered(db, id, r, root); }
  }

  lemma InsertKeepsShape(db: Database, id: Uuid, r: Request)
    requires Sound(db) && id !in db.requests && Legitimate(db.requests, r) && Insertable(db.requests, id, r)
    ensures Flat(db.requests[id := r]) && SameOwner(db.requests[id := r]) && NoDangling(Insert(db, id, r))
  {
    hide AllNumbered, InTimeOrder;
  }

  lemma InsertKeepsSound(db: Database, id: Uuid, r: Request)
    requires Sound(db) && id !in db.requests && Legitimate(db.requests, r)
    ensures Sound(Insert(db, id, r))
  {
    if Insertable(db.requests, id, r) {
      var after := db.requests[id := r];
      assert Insert(db, id, r).requests == after;
      InsertKeepsShape(db, id, r);
      InsertKeepsTimeOrder(db, id, r);
      hide Numbered, InTimeOrder, Flat, SameOwner, NoDangling, Insertable, Legitimate, Insert;
      forall root | root in after && after[root].root.None? ensures Numbered(after, root) {
        InsertKeepsNumbered(db, id, r, root);
      }
    }
  }

  /** The new row has its family's greatest revision, and nothing is newer. */
  lemma InsertKeepsTimeOrder(db: Database, id: Uuid, r: Request)
    requires Sound(db) && id !in db.requests && Legitimate(db.requests, r) && Insertable(db.requests, id, r)
    ensures InTimeOrder(db.requests[id := r])
  {
    var requests, after := db.requests, db.requests[id := r];
    forall x | x in requests && RootOf(x, requests[x]) == RootOf(id, r) ensures requests[x].revision <= r.revision {
      if r.root.Some? {
        OnlyTheNextRevisionIsAdmitted(db, id, r);
        assert Numbered(requests, r.root.value) && x in Family(requests, r.root.value);
      }
    }
    hide AllNumbered, Numbered, Insertable;
  }

  // -- deletion removes one whole family and nothing else --------------------------------------------

  lemma DoomedIsTheFamily(db: Database, user: Uuid, id: Uuid)
    requires Sound(db) && id in db.requests && db.requests[id].user == user
    ensures Doomed(db.requests, user, id) == Family(db.requests, RootOf(id, db.requests[id]))
    ensures forall x :: x in db.requests ==>
      (x in Doomed(db.requests, user, id) <==> RootOf(x, db.requests[x]) == RootOf(id, db.requests[id]))
  {
  }

  lemma OtherFamiliesSurvive(db: Database, user: Uuid, id: Uuid, root: Uuid)
    requires Sound(db) && id in db.requests && db.requests[id].user == user
    requires root in DeleteEntry(db, user, id).requests && db.requests[root].root.None?
    ensures Family(DeleteEntry(db, user, id).requests, root) == Family(db.requests, root)
    ensures forall x :: x in Family(db.requests, root) ==>
              x in DeleteEntry(db, user, id).requests && DeleteEntry(db, user, id).requests[x] == db.requests[x]
  {
    var after := DeleteEntry(db, user, id).requests;
    DoomedIsTheFamily(db, user, id);
    assert after == db.requests - Doomed(db.requests, user, id);
    hide Sound, DeleteEntry, Doomed, Family, RootOf;
    SurvivingFamily(db.requests, after, RootOf(id, db.requests[id]), root);
  }

  lemma SurvivingFamily(requests: Requests, after: Requests, gone: Uuid, root: Uuid)
    requires forall x :: x in after <==> x in requests && RootOf(x, requests[x]) != gone
    requires forall x :: x in after ==> after[x] == requests[x]
    requires root in after && requests[root].root.None?
    ensures Family(after, root) == Family(requests, root)
    ensures forall x :: x in Family(requests, root) ==> x in after && after[x] == requests[x]
  {
  }

  lemma DeleteKeepsNumbered(db: Database, user: Uuid, id: Uuid, root: Uuid)
    requires Sound(db) && id in db.requests && db.requests[id].user == user
    requires var after := DeleteEntry(db, user, id).requests; root in after && after[root].root.None?
    ensures Numbered(DeleteEntry(db, user, id).requests, root)
  {
    var after := DeleteEntry(db, user, id).requests;
    assert root in db.requests && after[root] == db.requests[root];
    OtherFamiliesSurvive(db, user, id, root);
    assert Numbered(db.requests, root);
    hide Sound, NumberedRows, Doomed, DeleteEntry, Family;
    SameRowsStayNumbered(db.requests, after, Family(db.requests, root));
  }

  lemma WithoutOneFamily(requests: Requests, after: Requests, root: Uuid)
    requires Flat(requests) && SameOwner(requests) && InTimeOrder(requests)
    requires forall x :: x in after <==> x in requests && RootOf(x, requests[x]) != root
    requires forall x :: x in after ==> after[x] == requests[x]
    ensures Flat(after) && SameOwner(after) && InTimeOrder(after)
  {
  }

  lemma DeleteLeavesNoDangling(db: Database, user: Uuid, id: Uuid)
    requires NoDangling(db) && id in db.requests
    ensures NoDangling(DeleteEntry(db, user, id))
  {
  }

  lemma DeleteKeepsShape(db: Database, user: Uuid, id: Uuid)
    requires Sound(db) && id in db.requests && db.requests[id].user == user
    ensures var after := DeleteEntry(db, user, id);
            Flat(after.requests) && SameOwner(after.requests) && InTimeOrder(after.requests) && NoDangling(after)
  {
    var after := DeleteEntry(db, user, id);
    DoomedIsTheFamily(db, user, id);
    DeleteLeavesNoDangling(db, user, id);
    assert after.requests == db.requests - Doomed(db.requests, user, id);
    hide AllNumbered, Doomed, DeleteEntry, NoDangling, Flat, SameOwner, InTimeOrder;
    WithoutOneFamily(db.requests, after.requests, RootOf(id, db.requests[id]));
  }

  lemma DeleteKeepsSound(db: Database, user: Uuid, id: Uuid)
    requires Sound(db) && id in db.requests && db.requests[id].user == user
    ensures Sound(DeleteEntry(db, user, id))
  {
    var after := DeleteEntry(db, user, id);
    DeleteKeepsShape(db, user, id);
    hide Numbered, InTimeOrder, Flat, SameOwner, NoDangling, DeleteEntry;
    forall root | root in after.requests && after.requests[root].root.None? ensures Numbered(after.requests, root) {
      DeleteKeepsNumbered(db, user, id, root);
    }
  }

  /** The family goes with its responses, decisions and attempts; every other row of those tables stays as it was. */
  lemma DeleteRemovesExactlyTheFamily(db: Database, user: Uuid, id: Uuid)
    requires Sound(db) && id in db.requests && db.requests[id].user == user
    ensures var after := DeleteEntry(db, user, id);
            var root := RootOf(id, db.requests[id]);
            && (forall x :: x in after.requests <==> x in db.requests && RootOf(x, db.requests[x]) != root)
            && (forall x :: x in after.requests ==> after.requests[x] == db.requests[x])
            && (forall x :: x in after.responses <==> x in db.responses && db.responses[x] in after.requests)
            && (forall x :: x in after.decisions <==> x in db.decisions && db.decisions[x] in after.requests)
            && (forall x :: x in after.attempts <==> x in db.attempts && db.attempts[x] in after.decisions)
            && (forall a :: a in db.analyses && a !in after.analyses ==>
                  db.requests[id].group == Some(db.analyses[a].group) &&
                  GroupIsEmpty(after.requests, db.analyses[a].user, db.analyses[a].group))
            && (db.requests[id].group.Some? && GroupIsEmpty(after.requests, user, db.requests[id].group.value) ==>
                  forall a :: a in after.analyses ==> after.analyses[a] != Analysis(user, db.requests[id].group.value))
  {
    DoomedIsTheFamily(db, user, id);
    hide AllNumbered, InTimeOrder, SameOwner;
  }

  // -- every run -------------------------------------------------------------------------------------

  /** Reads and inserts of one regeneration are separate transactions, so anything may happen in between. */
  datatype Op =
    | Save(newId: Uuid, name: string, user: Uuid, group: Option<Uuid>, now: Time)
    | Read(user: Uuid, source: Uuid)
    | Regenerate(context: Context, newId: Uuid, name: string, now: Time)
    | Respond(newId: Uuid, request: Uuid)
    | Route(newId: Uuid, request: Uuid)
    | Attempt(newId: Uuid, decision: Uuid)
    | Analyse(newId: Uuid, analysis: Analysis)
    | Delete(user: Uuid, entry: Uuid)

  /** `contexts` are the reads made so far, `used` the request ids ever given out. */
  datatype World = World(db: Database, contexts: set<Context>, used: set<Uuid>, clock: Time)

  function Initial(): World {
    World(Database(map[], map[], map[], map[], map[]), {}, {}, 0)
  }

  function Regenerated(c: Context, name: string, now: Time): Request {
    Request(c.user, name, Some(c.group), Some(c.root), c.revision, now)
  }

  ghost function Step(w: World, op: Op): World {
    match op
    case Save(newId, name, user, group, now) =>
      w.(db := Insert(w.db, newId, Request(user, name, group, None, 1, now)), used := w.used + {newId}, clock := now)
    case Read(user, source) =>
      var c := ContextFor(w.db.requests, user, source);
      if c.Some? then w.(contexts := w.contexts + {c.value}) else w
    case Regenerate(context, newId, name, now) =>
      w.(db := Insert(w.db, newId, Regenerated(context, name, now)), used := w.used + {newId}, clock := now)
    case Respond(newId, request) =>
      if request in w.db.requests then w.(db := w.db.(responses := w.db.responses[newId := request])) else w
    case Route(newId, request) =>
      if request in w.db.requests then w.(db := w.db.(decisions := w.db.decisions[newId := request])) else w
    case Attempt(newId, decision) =>
      if decision in w.db.decisions then w.(db := w.db.(attempts := w.db.attempts[newId := decision])) else w
    case Analyse(newId, analysis) => w.(db := w.db.(analyses := w.db.analyses[newId := analysis]))
    case Delete(user, entry) =>
      if entry in w.db.requests && w.db.requests[entry].user == user then w.(db := DeleteEntry(w.db, user, entry))
        else w
  }

  /** Fresh ids, a clock that does not go back, and regenerations from a context that was really read. */
  predicate Legal(w: World, op: Op) {
    match op
    case Save(newId, _, _, _, now) => newId !in w.used && w.clock <= now
    case Regenerate(context, newId, _, now) => context in w.contexts && newId !in w.used && w.clock <= now
    case Respond(newId, _) => newId !in w.db.responses
    case Route(newId, _) => newId !in w.db.decisions
    case Attempt(newId, _) => newId !in w.db.attempts
    case _ => true
  }

  predicate Usable(w: World, c: Context) {
    && c.root in w.used && 2 <= c.revision
    && (c.root in w.db.requests ==> Continues(w.db.requests, c.root, c.user, Some(c.group), c.revision))
  }

  ghost predicate WorldSound(w: World) {
    && Sound(w.db) && w.db.requests.Keys <= w.used
    && (forall id :: id in w.db.requests ==> w.db.requests[id].createdAt <= w.clock)
    && (forall c :: c in w.contexts ==> Usable(w, c))
  }

  lemma InsertKeepsUsable(w: World, id: Uuid, r: Request, c: Context, v: World)
    requires Sound(w.db) && id !in w.used && w.db.requests.Keys <= w.used && Usable(w, c)
    requires v.db == Insert(w.db, id, r) && v.used == w.used + {id}
    ensures Usable(v, c)
  {
    if Insertable(w.db.requests, id, r) && c.root in w.db.requests {
      FamiliesAfterInsert(w.db.requests, id, r, c.root);
    }
  }

  lemma DeleteKeepsUsable(w: World, user: Uuid, id: Uuid, c: Context, v: World)
    requires Sound(w.db) && id in w.db.requests && w.db.requests[id].user == user && Usable(w, c)
    requires v.db == DeleteEntry(w.db, user, id) && v.used == w.used
    ensures Usable(v, c)
  {
    if c.root in v.db.requests {
      assert c.root in w.db.requests && v.db.requests[c.root] == w.db.requests[c.root];
      hide Sound, DeleteEntry, Doomed, Family;
      OtherFamiliesSurvive(w.db, user, id, c.root);
    }
  }

  lemma ReadIsUsable(w: World, user: Uuid, source: Uuid)
    requires WorldSound(w) && ContextFor(w.db.requests, user, source).Some?
    ensures Usable(w, ContextFor(w.db.requests, user, source).value)
  {
  }

  lemma ReferenceStepKeepsSound(w: World, op: Op)
    requires Sound(w.db) && Legal(w, op) && !op.Save? && !op.Regenerate? && !op.Delete?
    ensures Sound(Step(w, op).db)
  {
  }

  lemma StepKeepsSound(w: World, op: Op)
    requires WorldSound(w) && Legal(w, op)
    ensures Sound(Step(w, op).db)
  {
    hide Sound, Usable, DeleteEntry, Insert, Family, Insertable;
    match op
    case Save(newId, name, user, group, now) =>
      InsertKeepsSound(w.db, newId, Request(user, name, group, None, 1, now));
    case Regenerate(context, newId, name, now) =>
      assert Legitimate(w.db.requests, Regenerated(context, name, now)) by { LegitimateContext(w, context, name, now); }
      InsertKeepsSound(w.db, newId, Regenerated(context, name, now));
    case Delete(user, entry) =>
      if entry in w.db.requests && w.db.requests[entry].user == user { DeleteKeepsSound(w.db, user, entry); }
    case _ =>
      ReferenceStepKeepsSound(w, op);
  }

  lemma LegitimateContext(w: World, c: Context, name: string, now: Time)
    requires WorldSound(w) && c in w.contexts && w.clock <= now
    ensures Legitimate(w.db.requests, Regenerated(c, name, now))
  {
  }

  lemma StepKeepsClock(w: World, op: Op)
    requires WorldSound(w) && Legal(w, op)
    ensures var v := Step(w, op);
            v.db.requests.Keys <= v.used && forall id :: id in v.db.requests ==> v.db.requests[id].createdAt <= v.clock
  {
  }

  lemma StepKeepsUsable(w: World, op: Op, c: Context)
    requires WorldSound(w) && Legal(w, op) && c in Step(w, op).contexts
    ensures Usable(Step(w, op), c)
  {
    var v := Step(w, op);
    match op
    case Save(newId, name, user, group, now) =>
      InsertKeepsUsable(w, newId, Request(user, name, group, None, 1, now), c, v);
    case Regenerate(context, newId, name, now) =>
      InsertKeepsUsable(w, newId, Regenerated(context, name, now), c, v);
    case Delete(user, entry) =>
      if entry in w.db.requests && w.db.requests[entry].user == user { DeleteKeepsUsable(w, user, entry, c, v); }
    case Read(user, source) =>
      hide Sound;
      if c !in w.contexts { ReadIsUsable(w, user, source); }
    case _ =>
  }

  ghost function Run(ops: seq<Op>): World {
    if ops == [] then Initial() else Step(Run(ops[..|ops| - 1]), ops[|ops| - 1])
  }

  ghost predicate LegalRun(ops: seq<Op>) {
    ops != [] ==> LegalRun(ops[..|ops| - 1]) && Legal(Run(ops[..|ops| - 1]), ops[|ops| - 1])
  }

  /** Families stay flat and gap-free and no reference dangles, however reads, inserts and deletions interleave. */
  lemma {:induction false} FamiliesAlwaysSound(ops: seq<Op>)
    requires LegalRun(ops)
    ensures WorldSound(Run(ops))
  {
    if ops != [] {
      var before, op := Run(ops[..|ops| - 1]), ops[|ops| - 1];
      FamiliesAlwaysSound(ops[..|ops| - 1]);
      StepKeepsSound(before, op);
      StepKeepsClock(before, op);
      hide Sound, Usable, Step, Legal;
      forall c | c in Step(before, op).contexts ensures Usable(Step(before, op), c) {
        StepKeepsUsable(before, op, c);
      }
    }
  }

  // -- queries and deletions in terms of the rows ----------------------------------------------------

  /** Two rows of one response: the same root, which is a row's own id if it has none. */
  predicate SameResponse(requests: Requests, a: Uuid, b: Uuid)
    requires a in requests && b in requests
  {
    (if requests[a].root.Some? then requests[a].root.value else a) ==
    (if requests[b].root.Some? then requests[b].root.value else b)
  }

  /** A regeneration goes to the root of the row named, one revision further than any of the response so far. */
  lemma RegenerationIsTheNext(db: Database, user: Uuid, id: Uuid)
    requires Sound(db)
    ensures var c := ContextFor(db.requests, user, id);
            if id in db.requests && db.requests[id].user == user && db.requests[id].group.Some? then
              && c.Some? && c.value.user == user && Some(c.value.group) == db.requests[id].group
              && c.value.root == (if db.requests[id].root.Some? then db.requests[id].root.value else id)
              && c.value.revision == |Family(db.requests, c.value.root)| + 1
              && forall x :: x in db.requests && SameResponse(db.requests, x, id) ==>
                   db.requests[x].revision < c.value.revision
            else c == None
  {
    if id in db.requests && db.requests[id].user == user && db.requests[id].group.Some? {
      var root := RootOf(id, db.requests[id]);
      LatestIsTheFamilySize(db.requests, root);
      assert Numbered(db.requests, root);
      assert id in Family(db.requests, root);
      forall x | x in db.requests && SameResponse(db.requests, x, id) ensures x in Family(db.requests, root) {
      }
      hide Latest, Flat, AllNumbered, SameOwner, InTimeOrder, NoDangling;
    }
  }

  /** The sources are the user's rows of the group that no revision of the same response is above, oldest first. */
  lemma SourcesAreTheLatest(db: Database, user: Uuid, group: Uuid, sources: seq<Uuid>, id: Uuid)
    requires Sound(db) && OnePerFamily(db.requests, user, group, sources) && OldestFirst(db.requests, sources)
    ensures id in sources <==>
            id in db.requests && db.requests[id].user == user && db.requests[id].group == Some(group) &&
            forall x :: x in db.requests && SameResponse(db.requests, x, id) ==>
              db.requests[x].revision <= db.requests[id].revision
  {
    if id in db.requests { TopOfItsResponse(db, id); }
    assert id in sources <==> InGroup(db.requests, user, group, id) &&
                              db.requests[id].revision == |Family(db.requests, RootOf(id, db.requests[id]))|;
    hide Sound, Family, SameResponse, OnePerFamily, OldestFirst;
  }

  lemma SourcesAreOldestFirst(requests: Requests, sources: seq<Uuid>, i: nat, j: nat)
    requires OldestFirst(requests, sources) && i < j < |sources|
    ensures sources[i] in requests && sources[j] in requests
    ensures var a, b := requests[sources[i]], requests[sources[j]];
            a.createdAt < b.createdAt || (a.createdAt == b.createdAt && a.revision <= b.revision)
  {
  }

  /** No revision of its response is above a row exactly if the row's revision is the number of them. */
  lemma TopOfItsResponse(db: Database, id: Uuid)
    requires Sound(db) && id in db.requests
    ensures db.requests[id].revision == |Family(db.requests, RootOf(id, db.requests[id]))| <==>
            forall x :: x in db.requests && SameResponse(db.requests, x, id) ==>
              db.requests[x].revision <= db.requests[id].revision
  {
    var root := RootOf(id, db.requests[id]);
    var family := Family(db.requests, root);
    assert Numbered(db.requests, root) && id in family;
    forall x | x in db.requests ensures SameResponse(db.requests, x, id) <==> x in family {
    }
    assert HasRevision(db.requests, family, |family|);
    var top :| top in family && top in db.requests && db.requests[top].revision == |family|;
    hide Sound, Family, SameResponse;
    assert SameResponse(db.requests, top, id);
  }

  /** Another user's group, or one that still has a row of the user, keeps its analyses. */
  lemma AnalysesGoWithTheirGroup(db: Database, user: Uuid, id: Uuid, x: Uuid)
    requires id in db.requests && x in db.analyses
    ensures var t := DeleteEntry(db, user, id);
            var a := db.analyses[x];
            var emptied := db.requests[id].group == Some(a.group) && a.user == user &&
                           forall y :: y in t.requests ==>
                             t.requests[y].user != user || t.requests[y].group != Some(a.group);
            if emptied then x !in t.analyses else x in t.analyses && t.analyses[x] == a
  {
  }
}
