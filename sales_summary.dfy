/**
 * The daily sales summary: which invoices belong to a day, what the summary
 * of a list of invoices is, and why that summary is the sum of amounts, the
 * per-sku total of quantities, and independent of the order of the invoices.
 */
module SalesSummary {
  import opened Invoices
  import opened Filters

  /** The last millisecond of a day, counted from its first (a 24-hour day). */
  const LastMillisecond: int := 86_399_999

  /** The store filter for the day that starts at `dayStart`: both ends inclusive. */
  function DayFilter(dayStart: int): (f: Filter)
    ensures forall inv :: Matches(f, inv) <==> dayStart <= inv.date <= dayStart + LastMillisecond
  {
    Filter(Some(Range(Some(dayStart), Some(dayStart + LastMillisecond))), None)
  }

  /** `totalAmount` and `itemSales[sku].qt`, the latter flattened to a number per sku. */
  datatype Summary = Summary(totalAmount: int, itemSales: map<string, int>)

  /** The sum of `f` over the invoices, added up in list order. */
  function SumOver(s: seq<Invoice>, f: Invoice -> int): int {
    if s == [] then 0 else SumOver(s[..|s| - 1], f) + f(s[|s| - 1])
  }

  function Amount(inv: Invoice): int {
    inv.amount
  }

  /** The sum of `qt` over the items that carry `sku`. */
  function QtOf(items: seq<Item>, sku: string): int {
    if items == [] then 0
    else QtOf(items[..|items| - 1], sku) + (if items[|items| - 1].sku == sku then items[|items| - 1].qt else 0)
  }

  /** How much of `sku` one invoice sold. */
  function QtFor(sku: string): Invoice -> int {
    (inv: Invoice) => QtOf(inv.items, sku)
  }

  predicate Mentions(items: seq<Item>, sku: string) {
    exists k :: 0 <= k < |items| && items[k].sku == sku
  }

  /** Some item of some invoice in `s` carries `sku`. */
  predicate Sold(s: seq<Invoice>, sku: string) {
    exists inv :: inv in s && Mentions(inv.items, sku)
  }

  /** All items of all invoices, invoice by invoice. */
  function Flatten(s: seq<Invoice>): seq<Item> {
    if s == [] then [] else Flatten(s[..|s| - 1]) + s[|s| - 1].items
  }

  /** One step of the item loop: add the item's quantity to its sku, starting it at 0. */
  function Record(m: map<string, int>, item: Item): map<string, int> {
    m[item.sku := (if item.sku in m then m[item.sku] else 0) + item.qt]
  }

  /** The `itemSales` dictionary after the item loop has visited `items` in order. */
  function Tally(items: seq<Item>): map<string, int> {
    if items == [] then map[] else Record(Tally(items[..|items| - 1]), items[|items| - 1])
  }

  /** What `calculateSalesSummary` computes from the invoices the store returned. */
  function Summarize(s: seq<Invoice>): Summary {
    Summary(SumOver(s, Amount), Tally(Flatten(s)))
  }

  lemma {:induction false} QtOfAppend(u: seq<Item>, v: seq<Item>, sku: string)
    ensures QtOf(u + v, sku) == QtOf(u, sku) + QtOf(v, sku)
    decreases |v|
  {
    if v == [] {
      assert u + v == u;
    } else {
      assert (u + v)[..|u + v| - 1] == u + v[..|v| - 1];
      QtOfAppend(u, v[..|v| - 1], sku);
    }
  }

  lemma {:induction false} SumOverAppend(a: seq<Invoice>, b: seq<Invoice>, f: Invoice -> int)
    ensures SumOver(a + b, f) == SumOver(a, f) + SumOver(b, f)
    decreases |b|
  {
    if b == [] {
      assert a + b == a;
    } else {
      assert (a + b)[..|a + b| - 1] == a + b[..|b| - 1];
      SumOverAppend(a, b[..|b| - 1], f);
    }
  }

  /** The dictionary has a key exactly for the skus visited, holding their summed quantity. */
  lemma {:induction false} TallyMeaning(items: seq<Item>, sku: string)
    ensures sku in Tally(items) <==> Mentions(items, sku)
    ensures sku in Tally(items) ==> Tally(items)[sku] == QtOf(items, sku)
    ensures sku !in Tally(items) ==> QtOf(items, sku) == 0
  {
    if items != [] {
      var init := items[..|items| - 1];
      TallyMeaning(init, sku);
      if Mentions(items, sku) && items[|items| - 1].sku != sku {
        var k :| 0 <= k < |items| && items[k].sku == sku;
        assert init[k].sku == sku;
      }
      if Mentions(init, sku) {
        var k :| 0 <= k < |init| && init[k].sku == sku;
        assert items[k].sku == sku;
      }
    }
  }

  /** Summing quantities over all items is summing each invoice's quantity. */
  lemma {:induction false} FlattenQt(s: seq<Invoice>, sku: string)
    ensures QtOf(Flatten(s), sku) == SumOver(s, QtFor(sku))
  {
    if s != [] {
      FlattenQt(s[..|s| - 1], sku);
      QtOfAppend(Flatten(s[..|s| - 1]), s[|s| - 1].items, sku);
    }
  }

  lemma MentionsAppend(u: seq<Item>, v: seq<Item>, sku: string)
    ensures Mentions(u + v, sku) <==> Mentions(u, sku) || Mentions(v, sku)
  {
    if Mentions(u + v, sku) {
      var k :| 0 <= k < |u + v| && (u + v)[k].sku == sku;
      if k < |u| {
        assert u[k].sku == sku;
      } else {
        assert v[k - |u|].sku == sku;
      }
    }
    if Mentions(v, sku) {
      var k :| 0 <= k < |v| && v[k].sku == sku;
      assert (u + v)[|u| + k].sku == sku;
    }
    if Mentions(u, sku) {
      var k :| 0 <= k < |u| && u[k].sku == sku;
      assert (u + v)[k].sku == sku;
    }
  }

  /** An item of the flattened list carries `sku` exactly when some invoice sold it. */
  lemma {:induction false} FlattenMentions(s: seq<Invoice>, sku: string)
    ensures Mentions(Flatten(s), sku) <==> Sold(s, sku)
  {
    if s != [] {
      var init, last := s[..|s| - 1], s[|s| - 1];
      FlattenMentions(init, sku);
      MentionsAppend(Flatten(init), last.items, sku);
      assert s == init + [last];
      if Sold(s, sku) {
        var inv :| inv in s && Mentions(inv.items, sku);
        assert inv == last || inv in init;
      }
      if Sold(init, sku) {
        var inv :| inv in init && Mentions(inv.items, sku);
        assert inv in s;
      }
    }
  }

  /**
   * The summary's meaning: `itemSales` has a key for exactly the skus sold,
   * each holding the total quantity sold over all the invoices.
   */
  lemma ItemSales(s: seq<Invoice>, sku: string)
    ensures sku in Summarize(s).itemSales <==> Sold(s, sku)
    ensures sku in Summarize(s).itemSales ==> Summarize(s).itemSales[sku] == SumOver(s, QtFor(sku))
  {
    TallyMeaning(Flatten(s), sku);
    FlattenMentions(s, sku);
    FlattenQt(s, sku);
  }

  /** Taking one invoice out of a list takes its term out of the sum. */
  lemma SumOverRemove(b: seq<Invoice>, k: nat, f: Invoice -> int)
    requires k < |b|
    ensures SumOver(b, f) == SumOver(b[..k] + b[k + 1..], f) + f(b[k])
  {
    var before, x, after := b[..k], b[k], b[k + 1..];
    var upto := before + [x];
    assert b == upto + after;
    SumOverAppend(upto, after, f);
    assert upto[..|upto| - 1] == before;
    SumOverAppend(before, after, f);
  }

  /** Taking one invoice out of a list takes one copy of it out of the multiset. */
  lemma MultisetRemove(b: seq<Invoice>, k: nat)
    requires k < |b|
    ensures multiset(b[..k] + b[k + 1..]) == multiset(b) - multiset{b[k]}
  {
    assert b == b[..k] + [b[k]] + b[k + 1..];
  }

  /** One more invoice visited by the outer loop. */
  lemma NextInvoice(s: seq<Invoice>, i: nat)
    requires i < |s|
    ensures SumOver(s[..i + 1], Amount) == SumOver(s[..i], Amount) + s[i].amount
    ensures Flatten(s[..i + 1]) == Flatten(s[..i]) + s[i].items
  {
    assert s[..i + 1][..i] == s[..i];
  }

  /** One more item visited by the inner loop. */
  lemma NextItem(done: seq<Item>, items: seq<Item>, j: nat)
    requires j < |items|
    ensures Tally(done + items[..j + 1]) == Record(Tally(done + items[..j]), items[j])
  {
    assert (done + items[..j + 1])[..|done| + j] == done + items[..j];
  }

  /** A sum over invoices does not depend on their order. */
  lemma {:induction false} SumOverPermutation(a: seq<Invoice>, b: seq<Invoice>, f: Invoice -> int)
    requires multiset(a) == multiset(b)
    ensures SumOver(a, f) == SumOver(b, f)
    decreases |a|
  {
    if a == [] {
      assert |b| == |multiset(b)| == 0;
    } else {
      var init, x := a[..|a| - 1], a[|a| - 1];
      assert a == init + [x];
      assert multiset(init) == multiset(a) - multiset{x};
      assert x in multiset(b);
      var k :| 0 <= k < |b| && b[k] == x;
      SumOverRemove(b, k, f);
      MultisetRemove(b, k);
      SumOverPermutation(init, b[..k] + b[k + 1..], f);
    }
  }

  /** The summary does not depend on the order in which the store returned the invoices. */
  lemma SummarizePermutation(a: seq<Invoice>, b: seq<Invoice>)
    requires multiset(a) == multiset(b)
    ensures Summarize(a) == Summarize(b)
  {
    SumOverPermutation(a, b, Amount);
    var ma, mb := Summarize(a).itemSales, Summarize(b).itemSales;
    forall sku
      ensures sku in ma <==> sku in mb
      ensures sku in ma ==> ma[sku] == mb[sku]
    {
      ItemSales(a, sku);
      ItemSales(b, sku);
      assert forall inv :: inv in a <==> inv in b by {
        forall inv ensures inv in a <==> inv in b {
          assert inv in a <==> inv in multiset(a);
          assert inv in b <==> inv in multiset(b);
        }
      }
      if sku in ma {
        SumOverPermutation(a, b, QtFor(sku));
      }
    }
    assert ma == mb;
  }

  /** The term `g` contributes for invoices that `f` selects, and 0 for the others. */
  function Where(f: Filter, g: Invoice -> int): Invoice -> int {
    (inv: Invoice) => if Matches(f, inv) then g(inv) else 0
  }

  /** Summing over what `find` returns is summing over the store, counting only matches. */
  lemma {:induction false} SumOverFind(s: seq<Invoice>, f: Filter, g: Invoice -> int)
    ensures SumOver(Find(s, f), g) == SumOver(s, Where(f, g))
  {
    if s != [] {
      var head, tail := [s[0]], s[1..];
      assert s == head + tail;
      SumOverFind(tail, f, g);
      SumOverAppend(head, tail, Where(f, g));
      assert head[..0] == [];
      if Matches(f, s[0]) {
        SumOverAppend(head, Find(tail, f), g);
      }
    }
  }

  /**
   * The published summary in terms of the whole store: `totalAmount` sums the
   * amounts of the invoices dated within the day, and `itemSales` has a key
   * for exactly the skus such an invoice carries, holding their total quantity.
   */
  lemma DaySummary(store: seq<Invoice>, dayStart: int, sku: string)
    ensures Summarize(Find(store, DayFilter(dayStart))).totalAmount == SumOver(store, Where(DayFilter(dayStart), Amount))
    ensures sku in Summarize(Find(store, DayFilter(dayStart))).itemSales <==>
      exists inv :: inv in store && dayStart <= inv.date <= dayStart + LastMillisecond && Mentions(inv.items, sku)
    ensures sku in Summarize(Find(store, DayFilter(dayStart))).itemSales ==>
      Summarize(Find(store, DayFilter(dayStart))).itemSales[sku] == SumOver(store, Where(DayFilter(dayStart), QtFor(sku)))
  {
    var f := DayFilter(dayStart);
    SumOverFind(store, f, Amount);
    SumOverFind(store, f, QtFor(sku));
    FindSelects(store, f);
    ItemSales(Find(store, f), sku);
  }

  /** With nothing sold that day, the summary is a zero total and an empty dictionary. */
  lemma EmptyDay()
    ensures Summarize([]) == Summary(0, map[])
  {
  }

  /**
   * Amounts 100 and 50, items A:2 and A:1, B:3: the summary is a total of
   * 150 with A:3 and B:3.
   */
  lemma TwoInvoicesExample(first: Invoice, second: Invoice)
    requires first.amount == 100 && first.items == [Item("A", 2)]
    requires second.amount == 50 && second.items == [Item("A", 1), Item("B", 3)]
    ensures Summarize([first, second]) == Summary(150, map["A" := 3, "B" := 3])
  {
    assert [first, second][..1] == [first];
    assert [first][..0] == [];
    assert Flatten([first]) == [Item("A", 2)];
    var items := [Item("A", 2), Item("A", 1), Item("B", 3)];
    assert Flatten([first, second]) == items;
    assert items[..2] == [Item("A", 2), Item("A", 1)];
    assert items[..2][..1] == [Item("A", 2)];
    assert items[..2][..1][..0] == [];
    assert Tally(items[..2][..1]) == map["A" := 2];
    assert Tally(items[..2]) == map["A" := 3];
    assert Tally(items) == map["A" := 3, "B" := 3];
    assert SumOver([first], Amount) == 100;
    assert SumOver([first, second], Amount) == 150;
  }

  /**
   * The names every plain JavaScript object inherits from `Object.prototype`.
   * Looking one of them up on the `{}` that `itemSales` starts as yields a
   * truthy value rather than `undefined`.
   */
  const InheritedNames: set<string> := {
    "constructor", "__proto__", "__defineGetter__", "__defineSetter__",
    "__lookupGetter__", "__lookupSetter__", "hasOwnProperty", "isPrototypeOf",
    "propertyIsEnumerable", "toLocaleString", "toString", "valueOf"
  }

  /**
   * The item step as the code performs it: the `{qt: 0}` start is skipped
   * whenever the lookup is truthy, so for an inherited name the `qt` update
   * lands on the inherited value and the dictionary gains no key.
   */
  function RecordAsWritten(m: map<string, int>, item: Item): map<string, int> {
    if item.sku !in m && item.sku in InheritedNames then m else Record(m, item)
  }

  /** The `itemSales` dictionary the code builds, inherited names included. */
  function TallyAsWritten(items: seq<Item>): (r: map<string, int>)
    ensures forall sku :: sku in r ==> sku !in InheritedNames
  {
    if items == [] then map[] else RecordAsWritten(TallyAsWritten(items[..|items| - 1]), items[|items| - 1])
  }

  /** An invoice line for sku "constructor" is missing from the dictionary the code builds. */
  lemma InheritedSkuIsDropped()
    ensures "constructor" !in TallyAsWritten([Item("constructor", 2)])
    ensures Tally([Item("constructor", 2)]) == map["constructor" := 2]
  {
    assert [Item("constructor", 2)][..0] == [];
  }

  /** Away from the inherited names, the code's dictionary is the intended one. */
  lemma {:induction false} AsWrittenAgreesElsewhere(items: seq<Item>)
    requires forall k :: 0 <= k < |items| ==> items[k].sku !in InheritedNames
    ensures TallyAsWritten(items) == Tally(items)
  {
    if items != [] {
      AsWrittenAgreesElsewhere(items[..|items| - 1]);
    }
  }

  /**
   * When no invoice sells a sku named like an inherited property, the
   * dictionary the code builds over the invoices is the summary's.
   */
  lemma AsWrittenSummary(s: seq<Invoice>)
    requires forall sku :: sku in InheritedNames ==> !Sold(s, sku)
    ensures TallyAsWritten(Flatten(s)) == Summarize(s).itemSales
  {
    var items := Flatten(s);
    forall k | 0 <= k < |items|
      ensures items[k].sku !in InheritedNames
    {
      assert Mentions(items, items[k].sku);
      FlattenMentions(s, items[k].sku);
    }
    AsWrittenAgreesElsewhere(items);
  }
}
