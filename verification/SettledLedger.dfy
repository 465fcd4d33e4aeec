/** The ledger rows of a settled reservation and the bill they sum to (server/billing/enforcement_service.py). */
module SettledLedger {
  import opened Prelude
  import opened Sequences
  import opened UsageTables
  import opened Metering
  import CreditLedger
  import Reconciliation

  // -- what the rows of one reservation sum to -------------------------------------------------------

  function CreditsFor(key: CreditLedger.LineKey, line: CreditLedger.Line, id: Uuid): int {
    if key.reservation == id then line.item.amounts.totalCredits else 0
  }

  /** The credits recorded for a reservation. */
  ghost function Recorded(rows: CreditLedger.Rows, id: Uuid): int {
    if rows == map[] then 0
    else
      var k := Pick(rows);
      CreditsFor(k, rows[k], id) + Recorded(rows - {k}, id)
  }

  lemma {:induction false} RecordedWithout(rows: CreditLedger.Rows, k: CreditLedger.LineKey, id: Uuid)
    requires k in rows
    ensures Recorded(rows, id) == CreditsFor(k, rows[k], id) + Recorded(rows - {k}, id)
    decreases |rows|
  {
    hide CreditsFor;
    var first := Pick(rows);
    if first != k {
      RecordedWithout(rows - {first}, k, id);
      RecordedWithout(rows - {k}, first, id);
      assert rows - {first} - {k} == rows - {k} - {first};
    }
  }

  lemma {:induction false} NothingRecorded(rows: CreditLedger.Rows, id: Uuid)
    requires forall k :: k in rows ==> k.reservation != id
    ensures Recorded(rows, id) == 0
    decreases |rows|
  {
    if rows != map[] { NothingRecorded(rows - {Pick(rows)}, id); }
  }

  /** The rows of the reservation are numbered as the lines are and bear their credits. */
  ghost predicate Holds(rows: CreditLedger.Rows, id: Uuid, lines: seq<Reconciliation.Item>) {
    && (forall k :: k in rows && k.reservation == id ==> 0 <= k.itemIndex < |lines|)
    && (forall i :: 0 <= i < |lines| ==>
          var k := CreditLedger.LineKey(id, i); k in rows && rows[k].item.amounts.totalCredits == lines[i].total)
  }

  lemma {:induction false} HeldLinesSum(rows: CreditLedger.Rows, id: Uuid, lines: seq<Reconciliation.Item>)
    requires Holds(rows, id, lines)
    ensures Recorded(rows, id) == Reconciliation.Total(lines)
    decreases |lines|
  {
    if lines == [] {
      NothingRecorded(rows, id);
    } else {
      var n := |lines| - 1;
      var k := CreditLedger.LineKey(id, n);
      RecordedWithout(rows, k, id);
      HeldLinesSum(rows - {k}, id, lines[..n]);
      assert lines == lines[..n] + [lines[n]];
      Reconciliation.SumsOfConcat(lines[..n], [lines[n]]);
    }
  }

  // -- the lines as writes ---------------------------------------------------------------------------

  function ItemType(kind: Reconciliation.Kind): string {
    match kind
    case Model => "model"
    case Research => "research"
    case Adjustment => "adjustment"
  }

  /** A line with its number in the loop; `rest` holds the texts, token counts and cache credits. */
  function WriteOf(r: Reservation, id: Uuid, line: Reconciliation.Item, index: nat, rest: CreditLedger.Item)
    : CreditLedger.Write
  {
    CreditLedger.Write(
      CreditLedger.LineKey(id, index),
      CreditLedger.Line(
        r.account, r.period,
        rest.(itemType := ItemType(line.kind),
              providerCostUsd := line.cost,
              amounts := rest.amounts.(totalCredits := line.total, inputCredits := line.input,
                                       outputCredits := line.output, fixedCredits := line.fixed))))
  }

  function WritesOf(r: Reservation, id: Uuid, lines: seq<Reconciliation.Item>, rest: nat -> CreditLedger.Item)
    : (ws: seq<CreditLedger.Write>)
    ensures |ws| == |lines|
    ensures forall i :: 0 <= i < |lines| ==> ws[i] == WriteOf(r, id, lines[i], i, rest(i))
  {
    seq(|lines|, i requires 0 <= i < |lines| => WriteOf(r, id, lines[i], i, rest(i)))
  }

  predicate NonnegativeLine(line: Reconciliation.Item) {
    line.total >= 0 && line.input >= 0 && line.output >= 0 && line.fixed >= 0 && line.cost >= 0.0
  }

  lemma {:induction false} CutLinesAreNonnegative(items: seq<Reconciliation.Item>, remaining: int)
    requires remaining >= 0 && forall i :: 0 <= i < |items| ==> NonnegativeLine(items[i])
    ensures forall i :: 0 <= i < |Reconciliation.CutAll(items, remaining)| ==>
              NonnegativeLine(Reconciliation.CutAll(items, remaining)[i])
    ensures Reconciliation.UnbilledCost(items, remaining) >= 0.0
  {
    if items != [] {
      var billed := Reconciliation.Billable(items[0], remaining);
      Reconciliation.CutCostWithin(items[0], billed);
      hide Reconciliation.BilledCost;
      CutLinesAreNonnegative(items[1..], remaining - billed);
    }
  }

  lemma LinesAreNonnegative(items: seq<Reconciliation.Item>, billed: int, actual: int)
    requires forall i :: 0 <= i < |items| ==> NonnegativeLine(items[i])
    ensures var lines := Reconciliation.Lines(items, billed, actual);
            forall i :: 0 <= i < |lines| ==> NonnegativeLine(lines[i])
  {
    var ordered := Sorted(items);
    forall i | 0 <= i < |ordered| ensures NonnegativeLine(ordered[i]) {
      assert ordered[i] in items;
    }
    CutLinesAreNonnegative(ordered, Reconciliation.NotNegative(billed));
  }

  function Sorted(items: seq<Reconciliation.Item>): seq<Reconciliation.Item> {
    StableSort(items, Reconciliation.ResearchFirst())
  }

  /** However often each is repeated and whatever is written in between, the lines due end up recorded, once each. */
  lemma DueLinesAreHeld(rows: CreditLedger.Rows, r: Reservation, id: Uuid, lines: seq<Reconciliation.Item>,
                        rest: nat -> CreditLedger.Item, ws: seq<CreditLedger.Write>)
    requires forall i :: 0 <= i < |lines| ==> NonnegativeLine(lines[i])
    requires forall i :: CreditLedger.Nonnegative(rest(i).amounts)
    requires forall k :: k in rows ==> k.reservation != id
    requires forall w :: w in WritesOf(r, id, lines, rest) ==> w in ws
    requires forall w :: w in ws && w.key.reservation == id ==> w in WritesOf(r, id, lines, rest)
    ensures Holds(CreditLedger.RecordAll(rows, ws), id, lines)
  {
    var due, after := WritesOf(r, id, lines, rest), CreditLedger.RecordAll(rows, ws);
    forall i | 0 <= i < |lines| ensures CreditLedger.ValidWrite(due[i]) && due[i] in ws {
      assert due[i] in due && NonnegativeLine(lines[i]) && CreditLedger.Nonnegative(rest(i).amounts);
    }
    hide CreditLedger.ValidWrite, CreditLedger.RecordAll, CreditLedger.Rounded;
    forall k | k in after && k.reservation == id
      ensures 0 <= k.itemIndex < |lines| && after[k].item.amounts.totalCredits == lines[k.itemIndex].total
    {
      CreditLedger.LedgerAfter(rows, ws, k);
      var j :| 0 <= j < |ws| && ws[j].key == k && CreditLedger.Stored(ws[j].line) == after[k];
      assert ws[j] in ws && ws[j] in due;
    }
    forall i | 0 <= i < |lines| ensures CreditLedger.LineKey(id, i) in after {
      CreditLedger.LedgerAfter(rows, ws, due[i].key);
      var j :| 0 <= j < |ws| && ws[j] == due[i];
    }
  }

  /**
    Settle an active reservation, reconcile its calculated items and write the lines, with any repetitions and
    among any writes for other reservations: the ledger's rows for it sum to exactly what it was settled for.
   */
  lemma RecordedCreditsAreTheBill(t: Tables, id: Uuid, meter: string, limit: int, now: Time,
                                  items: seq<Reconciliation.Item>, rest: nat -> CreditLedger.Item,
                                  rows: CreditLedger.Rows, ws: seq<CreditLedger.Write>)
    requires Consistent(t) && forall i :: 0 <= i < |items| ==> NonnegativeLine(items[i])
    requires var o := SettleWithSupplement(t, id, meter, Reconciliation.Total(items), limit, now);
             && o.result.Ok? && t.reservations[id].state == Reserved
             && var lines := Reconciliation.Lines(items, o.result.value.billed, Reconciliation.Total(items));
                var due := WritesOf(t.reservations[id], id, lines, rest);
                (forall w :: w in due ==> w in ws) && (forall w :: w in ws && w.key.reservation == id ==> w in due)
    requires forall i :: CreditLedger.Nonnegative(rest(i).amounts)
    requires forall k :: k in rows ==> k.reservation != id
    ensures var o := SettleWithSupplement(t, id, meter, Reconciliation.Total(items), limit, now);
            && o.tables.reservations[id].settled.Some?
            && Recorded(CreditLedger.RecordAll(rows, ws), id) ==
               Amount(o.tables.reservations[id].settled.value, meter)
  {
    assert Reconciliation.Calculated(items);
    Reconciliation.SettledLinesSumToTheBill(t, id, meter, limit, now, items);
    hide SettleWithSupplement, Consistent, Reconciliation.Calculated;
    var billed := SettleWithSupplement(t, id, meter, Reconciliation.Total(items), limit, now).result.value.billed;
    var lines := Reconciliation.Lines(items, billed, Reconciliation.Total(items));
    LinesAreNonnegative(items, billed, Reconciliation.Total(items));
    DueLinesAreHeld(rows, t.reservations[id], id, lines, rest, ws);
    HeldLinesSum(CreditLedger.RecordAll(rows, ws), id, lines);
  }
}
