/** The immutable credit ledger and its replay detection (db/billing_repository.py, create_credit_transaction). */
module CreditLedger {
  import opened Prelude

  datatype LineKey = LineKey(reservation: Uuid, itemIndex: int)

  datatype Amounts = Amounts(
    inputTokens: int,
    normalInputTokens: int,
    cachedInputTokens: int,
    cacheWriteTokens: int,
    reasoningTokens: int,
    outputTokens: int,
    inputCredits: int,
    normalInputCredits: int,
    cachedInputCredits: int,
    cacheWriteCredits: int,
    outputCredits: int,
    fixedCredits: int,
    totalCredits: int,
    uncachedEquivalentCredits: int,
    cacheSavingsCredits: int)

  /** What a replay is compared on; the owning account and period are not part of it. */
  datatype Item = Item(
    requestId: string,
    operation: string,
    itemType: string,
    provider: Option<string>,
    model: Option<string>,
    amounts: Amounts,
    providerCostUsd: real,
    usageEstimated: bool,
    pricingVersion: string,
    metadata: map<string, string>)

  datatype Line = Line(account: Uuid, period: Uuid, item: Item)

  datatype Write = Write(key: LineKey, line: Line)

  datatype LedgerError = InvalidLine | RecordedDifferently

  predicate Nonnegative(a: Amounts) {
    && a.inputTokens >= 0 && a.normalInputTokens >= 0 && a.cachedInputTokens >= 0 && a.cacheWriteTokens >= 0
    && a.reasoningTokens >= 0 && a.outputTokens >= 0 && a.inputCredits >= 0 && a.normalInputCredits >= 0
    && a.cachedInputCredits >= 0 && a.cacheWriteCredits >= 0 && a.outputCredits >= 0 && a.fixedCredits >= 0
    && a.totalCredits >= 0 && a.uncachedEquivalentCredits >= 0 && a.cacheSavingsCredits >= 0
  }

  predicate ValidWrite(w: Write) {
    && w.line.item.itemType in {"model", "research", "adjustment"}
    && w.key.itemIndex >= 0 && Nonnegative(w.line.item.amounts) && w.line.item.providerCostUsd >= 0.0
  }

  type Rows = map<LineKey, Line>

  const SCALE := 100000000.0

  /** The column holds eight decimals: PostgreSQL rounds to the nearest, and halves up. */
  function Rounded(cost: real): real {
    (cost * SCALE + 0.5).Floor as real / SCALE
  }

  /** A line as the table keeps it. */
  function Stored(line: Line): Line {
    line.(item := line.item.(providerCostUsd := Rounded(line.item.providerCostUsd)))
  }

  function Record(rows: Rows, w: Write): Rows {
    if ValidWrite(w) && w.key !in rows then rows[w.key := Stored(w.line)] else rows
  }

  function Answer(rows: Rows, w: Write): Result<Line, LedgerError> {
    if !ValidWrite(w) then Err(InvalidLine)
    else if w.key !in rows then Ok(Stored(w.line))
    else if rows[w.key].item == w.line.item then Ok(rows[w.key])
    else Err(RecordedDifferently)
  }

  class Ledger {
    var rows: Rows

    constructor ()
      ensures rows == map[]
    {
      rows := map[];
    }

    method CreateCreditTransaction(w: Write) returns (r: Result<Line, LedgerError>)
      modifies this
      ensures rows == Record(old(rows), w) && r == Answer(old(rows), w)
    {
      if w.line.item.itemType != "model" && w.line.item.itemType != "research" && w.line.item.itemType != "adjustment" {
        return Err(InvalidLine);
      }
      if w.key.itemIndex < 0 || !Nonnegative(w.line.item.amounts) { return Err(InvalidLine); }
      if w.line.item.providerCostUsd < 0.0 { return Err(InvalidLine); }
      if w.key !in rows {
        rows := rows[w.key := Stored(w.line)];
        return Ok(rows[w.key]);
      }
      var existing := rows[w.key];
      if existing.item != w.line.item { return Err(RecordedDifferently); }
      r := Ok(existing);
    }
  }

  function RecordAll(rows: Rows, ws: seq<Write>): Rows {
    if ws == [] then rows else Record(RecordAll(rows, ws[..|ws| - 1]), ws[|ws| - 1])
  }

  /** Over any writes, a recorded line never changes, and a new line is the first valid write for its key, as stored. */
  lemma {:induction false} LedgerAfter(rows: Rows, ws: seq<Write>, k: LineKey)
    ensures k in rows ==> k in RecordAll(rows, ws) && RecordAll(rows, ws)[k] == rows[k]
    ensures k in RecordAll(rows, ws) && k !in rows ==>
              exists i :: 0 <= i < |ws| && ws[i].key == k && ValidWrite(ws[i]) &&
                Stored(ws[i].line) == RecordAll(rows, ws)[k] &&
                forall j :: 0 <= j < i ==> ws[j].key != k || !ValidWrite(ws[j])
    ensures k !in RecordAll(rows, ws) ==> forall i :: 0 <= i < |ws| ==> ws[i].key != k || !ValidWrite(ws[i])
  {
    if ws != [] {
      var front := ws[..|ws| - 1];
      LedgerAfter(rows, front, k);
      assert forall i :: 0 <= i < |front| ==> front[i] == ws[i];
      if k in RecordAll(rows, front) && k !in rows {
        var i :| 0 <= i < |front| && front[i].key == k && ValidWrite(front[i]) &&
          Stored(front[i].line) == RecordAll(rows, front)[k] &&
          forall j :: 0 <= j < i ==> front[j].key != k || !ValidWrite(front[j]);
        assert ws[i].key == k && ValidWrite(ws[i]) && Stored(ws[i].line) == RecordAll(rows, ws)[k];
        assert forall j :: 0 <= j < i ==> ws[j].key != k || !ValidWrite(ws[j]);
      }
    }
  }

  /** Once every valid write's key is recorded, replaying them in any order, any number of times, changes nothing. */
  lemma {:induction false} ReplayChangesNothing(rows: Rows, ws: seq<Write>)
    requires forall w :: w in ws && ValidWrite(w) ==> w.key in rows
    ensures RecordAll(rows, ws) == rows
  {
    if ws != [] {
      ReplayChangesNothing(rows, ws[..|ws| - 1]);
      assert ws[|ws| - 1] in ws;
    }
  }

  /** No two valid writes disagree about a key. */
  ghost predicate Agreeing(ws: seq<Write>) {
    forall v, w :: v in ws && w in ws && ValidWrite(v) && ValidWrite(w) && v.key == w.key ==>
      Stored(v.line) == Stored(w.line)
  }

  /** Agreeing writes commute: the same writes in any order and multiplicity leave the same ledger. */
  lemma {:induction false} DeliveryOrderIsIrrelevant(rows: Rows, a: seq<Write>, b: seq<Write>)
    requires Agreeing(a) && forall w :: w in a <==> w in b
    ensures RecordAll(rows, a) == RecordAll(rows, b)
  {
    forall k
      ensures k in RecordAll(rows, a) <==> k in RecordAll(rows, b)
      ensures k in RecordAll(rows, a) ==> RecordAll(rows, a)[k] == RecordAll(rows, b)[k]
    {
      LedgerAfter(rows, a, k);
      LedgerAfter(rows, b, k);
      hide RecordAll, ValidWrite, Stored;
      assert forall i :: 0 <= i < |a| ==> a[i] in b;
      assert forall i :: 0 <= i < |b| ==> b[i] in a;
    }
  }

  /**
    Two writes commute exactly unless both are valid, new, for one key and stored differently.
   */
  lemma WritesCommuteIff(rows: Rows, v: Write, w: Write)
    ensures RecordAll(rows, [v, w]) == RecordAll(rows, [w, v]) <==>
            !(ValidWrite(v) && ValidWrite(w) && v.key == w.key && v.key !in rows &&
              Stored(v.line) != Stored(w.line))
  {
    hide ValidWrite, Stored;
    assert [v, w][..1] == [v] && [w, v][..1] == [w];
    assert RecordAll(rows, [v]) == Record(rows, v) by { assert [v][..0] == []; }
    assert RecordAll(rows, [w]) == Record(rows, w) by { assert [w][..0] == []; }
    if v.key != w.key {
      assert Record(Record(rows, v), w) == Record(Record(rows, w), v);
    } else if ValidWrite(v) && ValidWrite(w) && v.key !in rows {
      assert Record(Record(rows, v), w)[v.key] == Stored(v.line) && Record(Record(rows, w), v)[v.key] == Stored(w.line);
    }
  }

  // -- what a replay confirms ------------------------------------------------------------------------

  /** A cost with no more than eight decimals. */
  predicate AtScale(cost: real) {
    (cost * SCALE).Floor as real == cost * SCALE
  }

  lemma RoundedIsAtScale(cost: real)
    ensures AtScale(Rounded(cost))
    ensures Rounded(cost) == cost <==> AtScale(cost)
  {
    var n := (cost * SCALE + 0.5).Floor;
    assert Rounded(cost) * SCALE == n as real;
    assert (n as real).Floor == n;
    if AtScale(cost) {
      var k := (cost * SCALE).Floor;
      assert (k as real + 0.5).Floor == k;
    }
  }

  /** The very same write again is confirmed exactly when its cost has no more than eight decimals. */
  lemma IdenticalReplayIsConfirmedIff(rows: Rows, w: Write)
    requires ValidWrite(w) && w.key !in rows
    ensures var again := Answer(Record(rows, w), w);
            && (again == Ok(w.line) <==> AtScale(w.line.item.providerCostUsd))
            && (again == Err(RecordedDifferently) <==> !AtScale(w.line.item.providerCostUsd))
  {
    hide ValidWrite, AtScale, Rounded;
    RoundedIsAtScale(w.line.item.providerCostUsd);
    assert Record(rows, w)[w.key].item == w.line.item <==>
      Rounded(w.line.item.providerCostUsd) == w.line.item.providerCostUsd;
  }

  /** A third of a cent, as cutting an item to a third of its credits leaves it, is refused the second time. */
  lemma IdenticalReplayCanBeRefused(w: Write)
    requires ValidWrite(w) && w.line.item.providerCostUsd == 0.01 / 3.0
    ensures Answer(Record(map[], w), w) == Err(RecordedDifferently)
  {
    hide ValidWrite;
    assert 0.01 / 3.0 * SCALE == 1000000.0 / 3.0;
    assert (1000000.0 / 3.0).Floor == 333333;
    IdenticalReplayIsConfirmedIff(map[], w);
  }

  /** A replay that is accepted is answered with its own line exactly when account and period agree, too. */
  lemma ReplayConfirmsItselfIff(rows: Rows, w: Write)
    requires w.key in rows && Answer(rows, w).Ok?
    ensures Answer(rows, w).value == w.line <==>
            rows[w.key].account == w.line.account && rows[w.key].period == w.line.period
  {
  }

  /** One item written for two accounts: the second write is accepted and answered with the first account's line. */
  lemma ReplayCanConfirmAnother(key: LineKey, item: Item, period: Uuid)
    requires ValidWrite(Write(key, Line(1, period, item))) && AtScale(item.providerCostUsd)
    ensures var v, w := Write(key, Line(1, period, item)), Write(key, Line(2, period, item));
            Answer(Record(map[], v), w) == Ok(v.line) && v.line != w.line
  {
    RoundedIsAtScale(item.providerCostUsd);
    hide AtScale, Rounded;
    assert Stored(Line(1, period, item)) == Line(1, period, item);
  }

  /** Every write bears the account and period its reservation has, as both callers see to. */
  ghost predicate FromTheirReservations(ws: seq<Write>, owner: Uuid -> (Uuid, Uuid)) {
    forall w :: w in ws ==> (w.line.account, w.line.period) == owner(w.key.reservation)
  }

  /** For such callers an accepted write, replay or not, is always answered with its own line as stored. */
  lemma CallersAreConfirmedThemselves(ws: seq<Write>, w: Write, owner: Uuid -> (Uuid, Uuid))
    requires FromTheirReservations(ws + [w], owner) && Answer(RecordAll(map[], ws), w).Ok?
    ensures Answer(RecordAll(map[], ws), w).value == Stored(w.line)
  {
    var rows := RecordAll(map[], ws);
    assert w in ws + [w];
    if w.key in rows {
      LedgerAfter(map[], ws, w.key);
      var i :| 0 <= i < |ws| && ws[i].key == w.key && Stored(ws[i].line) == rows[w.key];
      assert ws[i] in ws + [w];
      hide Rounded;
      StoredOnce(ws[i].line);
      assert rows[w.key] == w.line;
    }
  }

  lemma StoredOnce(line: Line)
    ensures Stored(Stored(line)) == Stored(line)
  {
    RoundedIsAtScale(line.item.providerCostUsd);
    RoundedIsAtScale(Rounded(line.item.providerCostUsd));
    hide Rounded, AtScale;
  }

  // -- what is stored and what is refused ------------------------------------------------------------

  /** The stored cost is the nearest with eight decimals, the greater of two. */
  lemma RoundedIsNearest(cost: real)
    ensures (Rounded(cost) * 100000000.0).Floor as real == Rounded(cost) * 100000000.0
    ensures -0.000000005 < Rounded(cost) - cost <= 0.000000005
  {
    var n := (cost * SCALE + 0.5).Floor;
    RoundedIsAtScale(cost);
    assert Rounded(cost) == n as real / SCALE;
    assert n as real <= cost * SCALE + 0.5 < n as real + 1.0;
    assert Rounded(cost) * SCALE == n as real;
    assert (Rounded(cost) - cost) * SCALE == n as real - cost * SCALE;
    assert -0.5 < (Rounded(cost) - cost) * SCALE <= 0.5;
  }

  /** All numbers of a line but its cost. */
  function Numbers(a: Amounts): seq<int> {
    [a.inputTokens, a.normalInputTokens, a.cachedInputTokens, a.cacheWriteTokens, a.reasoningTokens, a.outputTokens,
     a.inputCredits, a.normalInputCredits, a.cachedInputCredits, a.cacheWriteCredits, a.outputCredits, a.fixedCredits,
     a.totalCredits, a.uncachedEquivalentCredits, a.cacheSavingsCredits]
  }

  lemma NumbersTell(a: Amounts)
    ensures Nonnegative(a) <==> forall i :: 0 <= i < |Numbers(a)| ==> Numbers(a)[i] >= 0
  {
    var n := Numbers(a);
    assert n[0] == a.inputTokens && n[1] == a.normalInputTokens && n[2] == a.cachedInputTokens;
    assert n[3] == a.cacheWriteTokens && n[4] == a.reasoningTokens && n[5] == a.outputTokens;
    assert n[6] == a.inputCredits && n[7] == a.normalInputCredits && n[8] == a.cachedInputCredits;
    assert n[9] == a.cacheWriteCredits && n[10] == a.outputCredits && n[11] == a.fixedCredits;
    assert n[12] == a.totalCredits && n[13] == a.uncachedEquivalentCredits && n[14] == a.cacheSavingsCredits;
  }

  /** A line of an unknown type, or with anything negative, is refused; a recorded one only if it says otherwise. */
  lemma AnswerIff(rows: Rows, w: Write)
    ensures var item := w.line.item;
            var proper := (item.itemType == "model" || item.itemType == "research" || item.itemType == "adjustment") &&
                          w.key.itemIndex >= 0 && item.providerCostUsd >= 0.0 &&
                          forall i :: 0 <= i < |Numbers(item.amounts)| ==> Numbers(item.amounts)[i] >= 0;
            && (Answer(rows, w) == Err(InvalidLine) <==> !proper)
            && (Answer(rows, w) == Err(RecordedDifferently) <==> proper && w.key in rows && rows[w.key].item != item)
            && (proper && w.key !in rows ==>
                  Answer(rows, w) ==
                  Ok(Line(w.line.account, w.line.period,
                          item.(providerCostUsd := Rounded(item.providerCostUsd)))) &&
                  Record(rows, w) == rows[w.key := Answer(rows, w).value])
            && (!proper || w.key in rows ==> Record(rows, w) == rows)
  {
    NumbersTell(w.line.item.amounts);
    hide Numbers, Nonnegative, Rounded;
  }
}
