/** From a settlement's bill to the ledger lines that add up to it (server/billing/enforcement_service.py). */
module Reconciliation {
  import opened Prelude
  import opened Sequences
  import opened UsageTables
  import opened Metering
  import opened MeteringProperties

  datatype Kind = Model | Research | Adjustment

  /** The credits and the provider cost of one line; the token counts and texts are carried along. */
  datatype Item = Item(kind: Kind, total: int, input: int, output: int, fixed: int, cost: real)

  function Total(items: seq<Item>): int {
    if items == [] then 0 else items[0].total + Total(items[1..])
  }

  function Cost(items: seq<Item>): real {
    if items == [] then 0.0 else items[0].cost + Cost(items[1..])
  }

  /** What the charges calculated before produce: nothing negative. */
  predicate Calculated(items: seq<Item>) {
    forall i :: 0 <= i < |items| ==> items[i].total >= 0 && items[i].cost >= 0.0
  }

  function NotNegative(x: int): int { if x < 0 then 0 else x }

  function ResearchFirst(): (Item, Item) -> bool {
    (a: Item, b: Item) => a.kind == Research || b.kind != Research
  }

  /** How much of an item is billed while `remaining` credits are left. */
  function Billable(item: Item, remaining: int): int {
    Min(NotNegative(item.total), remaining)
  }

  function BilledCost(item: Item, billed: int): real {
    var cost := if item.cost < 0.0 then 0.0 else item.cost;
    if NotNegative(item.total) == 0 then 0.0 else cost * (billed as real / NotNegative(item.total) as real)
  }

  /** The item cut down to what is billed of it. */
  function Cut(item: Item, billed: int): Item {
    if item.kind == Research then item.(total := billed, fixed := billed, input := 0, output := 0,
                                        cost := BilledCost(item, billed))
    else
      var input := Min(NotNegative(item.input), billed);
      item.(total := billed, input := input, output := NotNegative(billed - input), fixed := 0,
            cost := BilledCost(item, billed))
  }

  /** Bill the items in order until the credits run out. */
  function CutAll(items: seq<Item>, remaining: int): seq<Item> {
    if items == [] then []
    else
      var billed := Billable(items[0], remaining);
      [Cut(items[0], billed)] + CutAll(items[1..], remaining - billed)
  }

  function UnbilledCost(items: seq<Item>, remaining: int): real {
    if items == [] then 0.0
    else
      var billed := Billable(items[0], remaining);
      var cost := if items[0].cost < 0.0 then 0.0 else items[0].cost;
      var left := cost - BilledCost(items[0], billed);
      (if left < 0.0 then 0.0 else left) + UnbilledCost(items[1..], remaining - billed)
  }

  function Lines(items: seq<Item>, billed: int, actual: int): seq<Item> {
    if billed >= actual then items
    else
      var ordered := StableSort(items, ResearchFirst());
      CutAll(ordered, NotNegative(billed)) + [Item(Adjustment, 0, 0, 0, 0, UnbilledCost(ordered, NotNegative(billed)))]
  }

  method ReconcileTransactionItems(items: seq<Item>, billed: int, actual: int) returns (lines: seq<Item>)
    ensures lines == Lines(items, billed, actual)
  {
    if billed >= actual { return items; }
    var remaining := NotNegative(billed);
    var unbilledCost := 0.0;
    var ordered := StableSort(items, ResearchFirst());
    lines := [];
    var i := 0;
    while i < |ordered|
      invariant i <= |ordered|
      invariant lines + CutAll(ordered[i..], remaining) == CutAll(ordered, NotNegative(billed))
      invariant unbilledCost + UnbilledCost(ordered[i..], remaining) == UnbilledCost(ordered, NotNegative(billed))
    {
      var item := ordered[i];
      var share := Billable(item, remaining);
      var cost := if item.cost < 0.0 then 0.0 else item.cost;
      var billedCost := BilledCost(item, share);
      assert ordered[i..][1..] == ordered[i + 1..];
      unbilledCost := unbilledCost + (if cost - billedCost < 0.0 then 0.0 else cost - billedCost);
      remaining := remaining - share;
      lines := lines + [Cut(item, share)];
      i := i + 1;
    }
    lines := lines + [Item(Adjustment, 0, 0, 0, 0, unbilledCost)];
  }

  // -- the lines add up ------------------------------------------------------------------------------

  lemma {:induction false} SumsOfConcat(a: seq<Item>, b: seq<Item>)
    ensures Total(a + b) == Total(a) + Total(b) && Cost(a + b) == Cost(a) + Cost(b)
  {
    if a == [] {
      assert a + b == b;
    } else {
      SumsOfConcat(a[1..], b);
      assert (a + b)[1..] == a[1..] + b;
    }
  }

  lemma {:induction false} InsertKeepsSums(x: Item, s: seq<Item>, le: (Item, Item) -> bool)
    ensures Total(Insert(x, s, le)) == x.total + Total(s) && Cost(Insert(x, s, le)) == x.cost + Cost(s)
  {
    if s == [] || le(x, s[0]) {
      assert ([x] + s)[1..] == s;
    } else {
      InsertKeepsSums(x, s[1..], le);
      assert ([s[0]] + Insert(x, s[1..], le))[1..] == Insert(x, s[1..], le);
    }
  }

  lemma {:induction false} SortKeepsSums(s: seq<Item>, le: (Item, Item) -> bool)
    ensures Total(StableSort(s, le)) == Total(s) && Cost(StableSort(s, le)) == Cost(s)
  {
    if s != [] {
      SortKeepsSums(s[1..], le);
      InsertKeepsSums(s[0], StableSort(s[1..], le), le);
    }
  }

  lemma SortKeepsCalculated(s: seq<Item>, le: (Item, Item) -> bool)
    requires Calculated(s)
    ensures Calculated(StableSort(s, le))
  {
    var t := StableSort(s, le);
    forall i | 0 <= i < |t| ensures t[i].total >= 0 && t[i].cost >= 0.0 {
      assert t[i] in s;
    }
  }

  /** A part of the cost of an item is between nothing and all of it. */
  lemma CutCostWithin(item: Item, billed: int)
    requires item.cost >= 0.0 && 0 <= billed <= item.total
    ensures 0.0 <= BilledCost(item, billed) <= item.cost
  {
    if item.total > 0 {
      var ratio := billed as real / item.total as real;
      assert 0.0 <= ratio <= 1.0;
      assert item.cost * ratio <= item.cost * 1.0;
    }
  }

  lemma {:induction false} CutAllAddsUp(items: seq<Item>, remaining: int)
    requires Calculated(items) && remaining >= 0
    ensures Total(CutAll(items, remaining)) == Min(Total(items), remaining) && Total(items) >= 0
    ensures Cost(CutAll(items, remaining)) + UnbilledCost(items, remaining) == Cost(items)
  {
    if items != [] {
      var billed := Billable(items[0], remaining);
      CutCostWithin(items[0], billed);
      CutAllAddsUp(items[1..], remaining - billed);
      assert CutAll(items, remaining)[1..] == CutAll(items[1..], remaining - billed);
    }
  }

  /** The lines' credits sum to the bill, or to the usage where the bill is larger; no provider cost is lost. */
  lemma LinesAddUp(items: seq<Item>, billed: int, actual: int)
    requires Calculated(items) && billed >= 0 && actual == Total(items)
    ensures Total(Lines(items, billed, actual)) == Min(billed, actual)
    ensures Cost(Lines(items, billed, actual)) == Cost(items)
  {
    if billed < actual {
      var ordered := StableSort(items, ResearchFirst());
      SortKeepsSums(items, ResearchFirst());
      SortKeepsCalculated(items, ResearchFirst());
      CutAllAddsUp(ordered, billed);
      SumsOfConcat(CutAll(ordered, billed), [Item(Adjustment, 0, 0, 0, 0, UnbilledCost(ordered, billed))]);
    }
  }

  /** In a reconciled line the parts are the whole. */
  lemma {:induction false} PartsAreTheWhole(items: seq<Item>, remaining: int, i: nat)
    requires Calculated(items) && remaining >= 0 && i < |items|
    ensures i < |CutAll(items, remaining)|
    ensures var line := CutAll(items, remaining)[i];
            0 <= line.total <= items[i].total && line.input + line.output + line.fixed == line.total
  {
    if i > 0 { PartsAreTheWhole(items[1..], remaining - Billable(items[0], remaining), i - 1); }
  }

  /**
    Settling an active reservation and reconciling the calculated items: the ledger lines sum to exactly what the
    reservation was settled for.
   */
  lemma SettledLinesSumToTheBill(t: Tables, id: Uuid, meter: string, limit: int, now: Time, items: seq<Item>)
    requires Consistent(t) && Calculated(items)
    requires SettleWithSupplement(t, id, meter, Total(items), limit, now).result.Ok? &&
             t.reservations[id].state == Reserved
    ensures var o := SettleWithSupplement(t, id, meter, Total(items), limit, now);
            && Total(Lines(items, o.result.value.billed, Total(items))) == o.result.value.billed
            && o.tables.reservations[id].settled.Some?
            && o.result.value.billed == Amount(o.tables.reservations[id].settled.value, meter)
  {
    SettleWithSupplementKeepsAgreement(t, id, meter, Total(items), limit, now);
    hide SettleWithSupplement, Consistent, Lines;
    LinesAddUp(items, SettleWithSupplement(t, id, meter, Total(items), limit, now).result.value.billed, Total(items));
  }

  // -- who is billed first ---------------------------------------------------------------------------

  function IsResearch(): Item -> bool { (x: Item) => x.kind == Research }

  function IsOther(): Item -> bool { (x: Item) => x.kind != Research }

  /** The items in the order they are billed: research, then the rest, each as given. */
  function BillingOrder(items: seq<Item>): seq<Item> {
    StableSort(items, ResearchFirst())
  }

  lemma ResearchIsBilledFirst(items: seq<Item>)
    ensures var o := BillingOrder(items);
            && multiset(o) == multiset(items)
            && (forall i, j :: 0 <= i < j < |o| ==> o[j].kind == Research ==> o[i].kind == Research)
            && Filter(o, IsResearch()) == Filter(items, IsResearch())
            && Filter(o, IsOther()) == Filter(items, IsOther())
  {
    assert TotalPreorder(ResearchFirst());
    StableSortSorted(items, ResearchFirst());
    StableSortKeepsTies(items, ResearchFirst(), IsResearch());
    StableSortKeepsTies(items, ResearchFirst(), IsOther());
  }

  /** The cut of one item: research is a fixed price, a model's input comes first, and the cost is in proportion. */
  predicate CutOf(item: Item, line: Item) {
    && line.kind == item.kind && 0 <= line.total <= item.total
    && (item.kind == Research ==> line.fixed == line.total && line.input == 0 && line.output == 0)
    && (item.kind != Research ==>
          && line.fixed == 0 && line.output == line.total - line.input
          && line.input == if item.input < 0 then 0 else if item.input < line.total then item.input else line.total)
    && (item.total > 0 ==> line.cost * item.total as real == item.cost * line.total as real)
    && (item.total == 0 ==> line.cost == 0.0)
  }

  lemma CutIsACut(item: Item, billed: int)
    requires item.total >= 0 && item.cost >= 0.0 && 0 <= billed <= item.total
    ensures CutOf(item, Cut(item, billed)) && Cut(item, billed).total == billed
  {
    if item.total > 0 {
      assert BilledCost(item, billed) == item.cost * (billed as real / item.total as real);
      assert billed as real / item.total as real * item.total as real == billed as real;
      assert item.cost * (billed as real / item.total as real) * item.total as real ==
             item.cost * (billed as real / item.total as real * item.total as real);
    }
  }

  /** Every item has its line, and none is billed anything before all earlier ones are billed in full. */
  lemma {:induction false} BilledInOrder(items: seq<Item>, remaining: int, i: nat, j: nat)
    requires Calculated(items) && remaining >= 0 && i <= j < |items|
    ensures |CutAll(items, remaining)| == |items|
    ensures CutOf(items[j], CutAll(items, remaining)[j])
    ensures i < j && CutAll(items, remaining)[j].total > 0 ==> CutAll(items, remaining)[i].total == items[i].total
  {
    var billed := Billable(items[0], remaining);
    CutIsACut(items[0], billed);
    CutAllLength(items, remaining);
    hide Cut, CutOf;
    if i > 0 {
      BilledInOrder(items[1..], remaining - billed, i - 1, j - 1);
    } else if j > 0 {
      BilledInOrder(items[1..], remaining - billed, j - 1, j - 1);
      if remaining == billed { NothingLeft(items[1..], j - 1); }
    }
  }

  lemma {:induction false} CutAllLength(items: seq<Item>, remaining: int)
    ensures |CutAll(items, remaining)| == |items|
  {
    if items != [] { CutAllLength(items[1..], remaining - Billable(items[0], remaining)); }
  }

  lemma {:induction false} NothingLeft(items: seq<Item>, j: nat)
    requires Calculated(items) && j < |items|
    ensures |CutAll(items, 0)| == |items| && CutAll(items, 0)[j].total == 0
  {
    CutAllLength(items, 0);
    if j > 0 { NothingLeft(items[1..], j - 1); }
  }

  /** Of a bill below the usage the items are cut in billing order; the rest of their cost is one more line. */
  lemma LinesInBillingOrder(items: seq<Item>, billed: int, actual: int, i: nat, j: nat)
    requires Calculated(items) && 0 <= billed < actual && i < j < |items|
    ensures var o, lines := BillingOrder(items), Lines(items, billed, actual);
            && |lines| == |items| + 1
            && CutOf(o[i], lines[i]) && CutOf(o[j], lines[j])
            && (lines[j].total > 0 ==> lines[i].total == o[i].total)
            && lines[|items|] == Item(Adjustment, 0, 0, 0, 0, lines[|items|].cost)
  {
    var o := BillingOrder(items);
    SortKeepsCalculated(items, ResearchFirst());
    BilledInOrder(o, billed, i, j);
    BilledInOrder(o, billed, i, i);
  }
}
