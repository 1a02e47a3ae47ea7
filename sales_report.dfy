/**
 * The top-selling-products part of the sales report view (pos/views.py,
 * `sales_report`): the items of the completed transactions in the date
 * range are grouped by product, each group's quantity and sales are summed,
 * and the ten groups with the highest sales are kept, highest first.
 */
module SalesReport {
  import opened Wrappers
  import opened PosModels

  /** The report covers completed transactions whose timestamp lies in `[start, end]`. */
  predicate InReport(t: Transaction, start: int, end: int) {
    t.status == Completed && start <= t.timestamp <= end
  }

  /**
   * The items of the covered transactions, in the order the database yields
   * the transactions: every reported item belongs to a covered transaction,
   * and every item of a covered transaction is reported.
   */
  function ReportItems(transactions: seq<Transaction>, start: int, end: int): (items: seq<TransactionItem>)
    ensures forall i :: 0 <= i < |items| ==>
      exists t :: t in transactions && InReport(t, start, end) && items[i] in t.items
    ensures forall t :: t in transactions && InReport(t, start, end) ==>
      forall x :: x in t.items ==> x in items
  {
    if transactions == [] then []
    else
      var front, last := transactions[..|transactions| - 1], transactions[|transactions| - 1];
      var earlier := ReportItems(front, start, end);
      var mine := if InReport(last, start, end) then last.items else [];
      assert forall i :: 0 <= i < |earlier| ==> earlier[i] == (earlier + mine)[i];
      assert forall t :: t in transactions ==> t in front || t == last;
      earlier + mine
  }

  /** One entry of `products_data`: the product it is keyed by and its running totals. */
  datatype ProductSales = ProductSales(productId: Option<int>, name: string, quantity: int, sales: int)

  /** The position of the entry for product `id`, or `|groups|` when there is none. */
  function GroupIndex(groups: seq<ProductSales>, id: Option<int>): (k: nat)
    ensures k <= |groups|
    ensures k < |groups| ==> groups[k].productId == id
    ensures forall j :: 0 <= j < k ==> groups[j].productId != id
  {
    if groups == [] then 0
    else if groups[0].productId == id then 0
    else 1 + GroupIndex(groups[1..], id)
  }

  /** One turn of the grouping loop: a new product gets an entry at the end, then its totals grow. */
  function AddSale(groups: seq<ProductSales>, item: TransactionItem): seq<ProductSales> {
    var k := GroupIndex(groups, item.productId);
    var withEntry := if k < |groups| then groups else groups + [ProductSales(item.productId, item.name, 0, 0)];
    withEntry[k := withEntry[k].(quantity := withEntry[k].quantity + item.quantity,
                                 sales := withEntry[k].sales + item.quantity * item.price)]
  }

  /** `products_data.values()` after the loop over `items`, in insertion order. */
  function Grouped(items: seq<TransactionItem>): seq<ProductSales> {
    if items == [] then [] else AddSale(Grouped(items[..|items| - 1]), items[|items| - 1])
  }

  /** The quantity of product `id` over all items. */
  function QuantitySold(items: seq<TransactionItem>, id: Option<int>): int {
    if items == [] then 0
    else
      var last := items[|items| - 1];
      QuantitySold(items[..|items| - 1], id) + (if last.productId == id then last.quantity else 0)
  }

  /** The sales (quantity times price) of product `id` over all items. */
  function SalesOf(items: seq<TransactionItem>, id: Option<int>): int {
    if items == [] then 0
    else
      var last := items[|items| - 1];
      SalesOf(items[..|items| - 1], id) + (if last.productId == id then last.quantity * last.price else 0)
  }

  /** Totals over a concatenation are the sums of the totals over its parts. */
  lemma {:induction false} TotalsOfConcat(a: seq<TransactionItem>, b: seq<TransactionItem>, id: Option<int>)
    ensures QuantitySold(a + b, id) == QuantitySold(a, id) + QuantitySold(b, id)
    ensures SalesOf(a + b, id) == SalesOf(a, id) + SalesOf(b, id)
    decreases |b|
  {
    if b != [] {
      var front := b[..|b| - 1];
      TotalsOfConcat(a, front, id);
      assert (a + b)[..|a + b| - 1] == a + front;
      assert (a + b)[|a + b| - 1] == b[|b| - 1];
    } else {
      assert a + b == a;
    }
  }

  /** The quantity of product `id` sold, summed transaction by transaction over the covered ones. */
  function CoveredQuantity(transactions: seq<Transaction>, start: int, end: int, id: Option<int>): int {
    if transactions == [] then 0
    else
      var last := transactions[|transactions| - 1];
      CoveredQuantity(transactions[..|transactions| - 1], start, end, id)
      + (if InReport(last, start, end) then QuantitySold(last.items, id) else 0)
  }

  /** The sales of product `id`, summed transaction by transaction over the covered ones. */
  function CoveredSales(transactions: seq<Transaction>, start: int, end: int, id: Option<int>): int {
    if transactions == [] then 0
    else
      var last := transactions[|transactions| - 1];
      CoveredSales(transactions[..|transactions| - 1], start, end, id)
      + (if InReport(last, start, end) then SalesOf(last.items, id) else 0)
  }

  /**
   * Nothing covered is lost or counted twice: the totals over the reported
   * items are the per-transaction totals of the covered transactions, added up.
   */
  lemma {:induction false} ReportTotals(transactions: seq<Transaction>, start: int, end: int, id: Option<int>)
    ensures QuantitySold(ReportItems(transactions, start, end), id) == CoveredQuantity(transactions, start, end, id)
    ensures SalesOf(ReportItems(transactions, start, end), id) == CoveredSales(transactions, start, end, id)
    decreases |transactions|
  {
    if transactions != [] {
      var front, last := transactions[..|transactions| - 1], transactions[|transactions| - 1];
      ReportTotals(front, start, end, id);
      var mine := if InReport(last, start, end) then last.items else [];
      TotalsOfConcat(ReportItems(front, start, end), mine, id);
    }
  }

  predicate KeysUnique(groups: seq<ProductSales>) {
    forall i, j :: 0 <= i < j < |groups| ==> groups[i].productId != groups[j].productId
  }

  /** Every entry holds exactly its product's totals. */
  predicate TotalsMatch(groups: seq<ProductSales>, items: seq<TransactionItem>) {
    forall i :: 0 <= i < |groups| ==>
      groups[i].quantity == QuantitySold(items, groups[i].productId) && groups[i].sales == SalesOf(items, groups[i].productId)
  }

  /** Whether some item is for product `id`. */
  predicate Sold(items: seq<TransactionItem>, id: Option<int>) {
    exists j :: 0 <= j < |items| && items[j].productId == id
  }

  /** A product none of the items is for has sold nothing. */
  lemma {:induction false} NothingSold(items: seq<TransactionItem>, id: Option<int>)
    requires forall j :: 0 <= j < |items| ==> items[j].productId != id
    ensures QuantitySold(items, id) == 0 && SalesOf(items, id) == 0
    decreases |items|
  {
    if items != [] {
      NothingSold(items[..|items| - 1], id);
    }
  }

  /**
   * The grouping is a faithful summary: one entry per product, an entry for
   * every product sold, and each entry's quantity and sales are the sums over
   * that product's items.
   */
  lemma {:induction false} GroupedSummary(items: seq<TransactionItem>)
    ensures KeysUnique(Grouped(items))
    ensures TotalsMatch(Grouped(items), items)
    ensures forall j :: 0 <= j < |items| ==> GroupIndex(Grouped(items), items[j].productId) < |Grouped(items)|
    ensures forall i :: 0 <= i < |Grouped(items)| ==> Sold(items, Grouped(items)[i].productId)
    decreases |items|
  {
    if items != [] {
      var front, x := items[..|items| - 1], items[|items| - 1];
      GroupedSummary(front);
      var before := Grouped(front);
      var after := Grouped(items);
      assert after == AddSale(before, x);
      var k := GroupIndex(before, x.productId);
      if k == |before| {
        NothingSold(front, x.productId);
      }
      forall i | 0 <= i < |after|
        ensures after[i].quantity == QuantitySold(items, after[i].productId)
        ensures after[i].sales == SalesOf(items, after[i].productId)
      {
        if i != k {
          assert after[i] == before[i];
          assert before[i].productId != x.productId;
        }
      }
      forall j | 0 <= j < |items|
        ensures GroupIndex(after, items[j].productId) < |after|
      {
        if j < |front| {
          assert front[j] == items[j];
          var m := GroupIndex(before, items[j].productId);
          assert after[m].productId == items[j].productId;
        } else {
          assert after[k].productId == x.productId;
        }
      }
    }
    GroupsAreSold(items);
  }

  /** Every entry of the grouping is for a product some item is for. */
  lemma {:induction false} GroupsAreSold(items: seq<TransactionItem>)
    ensures forall i :: 0 <= i < |Grouped(items)| ==> Sold(items, Grouped(items)[i].productId)
    decreases |items|
  {
    if items != [] {
      var front, x := items[..|items| - 1], items[|items| - 1];
      GroupsAreSold(front);
      var before := Grouped(front);
      var after := Grouped(items);
      assert after == AddSale(before, x);
      forall i | 0 <= i < |after|
        ensures Sold(items, after[i].productId)
      {
        if i < |before| {
          assert after[i].productId == before[i].productId;
          var j :| 0 <= j < |front| && front[j].productId == before[i].productId;
          assert items[j] == front[j];
        } else {
          assert items[|items| - 1].productId == after[i].productId;
        }
      }
    }
  }

  /** The grouping loop of `sales_report`. */
  method AggregateSales(items: seq<TransactionItem>) returns (groups: seq<ProductSales>)
    ensures groups == Grouped(items)
    ensures KeysUnique(groups) && TotalsMatch(groups, items)
    ensures forall j :: 0 <= j < |items| ==> GroupIndex(groups, items[j].productId) < |groups|
  {
    groups := [];
    var i := 0;
    while i < |items|
      invariant 0 <= i <= |items|
      invariant groups == Grouped(items[..i])
    {
      var item := items[i];
      assert items[..i + 1][..i] == items[..i];
      var k := GroupIndex(groups, item.productId);
      if k == |groups| {
        groups := groups + [ProductSales(item.productId, item.name, 0, 0)];
      }
      groups := groups[k := groups[k].(quantity := groups[k].quantity + item.quantity)];
      groups := groups[k := groups[k].(sales := groups[k].sales + item.quantity * item.price)];
      i := i + 1;
    }
    assert items[..i] == items;
    GroupedSummary(items);
  }

  /** Highest sales first. */
  predicate SortedBySales(s: seq<ProductSales>) {
    forall i, j :: 0 <= i < j < |s| ==> s[i].sales >= s[j].sales
  }

  /** Puts `x` after every entry that sells at least as much, so earlier equals stay first. */
  function InsertBySales(x: ProductSales, sorted: seq<ProductSales>): (r: seq<ProductSales>)
    ensures multiset(r) == multiset(sorted) + multiset{x}
    ensures |r| == |sorted| + 1
  {
    if sorted == [] then [x]
    else if sorted[0].sales >= x.sales then
      assert sorted == [sorted[0]] + sorted[1..];
      [sorted[0]] + InsertBySales(x, sorted[1..])
    else [x] + sorted
  }

  lemma {:induction false} InsertKeepsSorted(x: ProductSales, sorted: seq<ProductSales>)
    requires SortedBySales(sorted)
    ensures SortedBySales(InsertBySales(x, sorted))
    decreases |sorted|
  {
    if sorted != [] && sorted[0].sales >= x.sales {
      var rest := InsertBySales(x, sorted[1..]);
      InsertKeepsSorted(x, sorted[1..]);
      forall e: ProductSales | e in multiset(rest)
        ensures sorted[0].sales >= e.sales
      {
        assert e in multiset(sorted[1..]) + multiset{x};
        if e in multiset(sorted[1..]) {
          var j :| 0 <= j < |sorted[1..]| && sorted[1..][j] == e;
          assert sorted[j + 1] == e;
        }
      }
      forall j | 0 <= j < |rest|
        ensures sorted[0].sales >= rest[j].sales
      {
        assert rest[j] in multiset(rest);
      }
    }
  }

  /** `sorted(products_data.values(), key=sales, reverse=True)`, written as an insertion sort. */
  function SortBySales(s: seq<ProductSales>): (r: seq<ProductSales>)
    ensures multiset(r) == multiset(s)
    ensures |r| == |s|
  {
    if s == [] then []
    else
      var front := s[..|s| - 1];
      assert s == front + [s[|s| - 1]];
      InsertBySales(s[|s| - 1], SortBySales(front))
  }

  lemma {:induction false} SortBySalesSorted(s: seq<ProductSales>)
    ensures SortedBySales(SortBySales(s))
    decreases |s|
  {
    if s != [] {
      SortBySalesSorted(s[..|s| - 1]);
      InsertKeepsSorted(s[|s| - 1], SortBySales(s[..|s| - 1]));
    }
  }

  function Min(a: int, b: int): int {
    if a <= b then a else b
  }

  /**
   * The sorted entries cut to ten: highest sales first, nothing but report
   * entries, and no entry left out sells more than any entry kept.
   */
  function TopTen(groups: seq<ProductSales>): (top: seq<ProductSales>)
    ensures |top| == Min(10, |groups|)
    ensures SortedBySales(top)
    ensures forall i :: 0 <= i < |top| ==> top[i] in groups
    ensures forall g :: g in groups && g !in top ==> forall i :: 0 <= i < |top| ==> top[i].sales >= g.sales
    ensures KeysUnique(groups) ==> KeysUnique(top)
  {
    var sorted := SortBySales(groups);
    SortBySalesSorted(groups);
    SortKeepsKeysUnique(groups);
    var top := sorted[..Min(10, |groups|)];
    assert forall i :: 0 <= i < |top| ==> top[i] == sorted[i];
    forall i | 0 <= i < |top|
      ensures top[i] in groups
    {
      assert sorted[i] in multiset(sorted);
    }
    forall g | g in groups && g !in top
      ensures forall i :: 0 <= i < |top| ==> top[i].sales >= g.sales
    {
      assert g in multiset(groups);
      assert g in multiset(sorted);
      var j :| 0 <= j < |sorted| && sorted[j] == g;
    }
    top
  }

  /** Whether product `id` was sold in some covered transaction. */
  predicate SoldInRange(transactions: seq<Transaction>, start: int, end: int, id: Option<int>) {
    exists t :: t in transactions && InReport(t, start, end) && exists x :: x in t.items && x.productId == id
  }

  /** Whether the list has an entry for product `id`. */
  predicate Listed(groups: seq<ProductSales>, id: Option<int>) {
    exists i :: 0 <= i < |groups| && groups[i].productId == id
  }

  /** A product among the reported items was sold in a covered transaction. */
  lemma ReportedIsSold(transactions: seq<Transaction>, start: int, end: int, id: Option<int>)
    requires Sold(ReportItems(transactions, start, end), id)
    ensures SoldInRange(transactions, start, end, id)
  {
    var items := ReportItems(transactions, start, end);
    var j :| 0 <= j < |items| && items[j].productId == id;
    var t :| t in transactions && InReport(t, start, end) && items[j] in t.items;
  }

  /** A product sold in a covered transaction is among the reported items. */
  lemma SoldIsReported(transactions: seq<Transaction>, start: int, end: int, id: Option<int>)
    requires SoldInRange(transactions, start, end, id)
    ensures Sold(ReportItems(transactions, start, end), id)
  {
    var items := ReportItems(transactions, start, end);
    var t :| t in transactions && InReport(t, start, end) && exists x :: x in t.items && x.productId == id;
    var x :| x in t.items && x.productId == id;
    assert x in items;
    var j :| 0 <= j < |items| && items[j] == x;
  }

  /** A sold product missing from the top ten sells no more than any entry in it. */
  lemma LeftOutSellsLess(items: seq<TransactionItem>, id: Option<int>)
    requires Sold(items, id) && !Listed(TopTen(Grouped(items)), id)
    ensures forall i :: 0 <= i < |TopTen(Grouped(items))| ==> TopTen(Grouped(items))[i].sales >= SalesOf(items, id)
  {
    var groups := Grouped(items);
    GroupedSummary(items);
    var j :| 0 <= j < |items| && items[j].productId == id;
    var g := groups[GroupIndex(groups, id)];
    assert g in groups;
    var top := TopTen(groups);
    forall i | 0 <= i < |top|
      ensures top[i] != g
    {
      assert top[i].productId != id;
    }
  }

  /** Every entry of the top ten is a product sold, with its totals over the items. */
  lemma TopTenTotals(items: seq<TransactionItem>)
    ensures forall i :: 0 <= i < |TopTen(Grouped(items))| ==>
      var e := TopTen(Grouped(items))[i];
      Sold(items, e.productId) && e.quantity == QuantitySold(items, e.productId) && e.sales == SalesOf(items, e.productId)
  {
    var groups := Grouped(items);
    GroupedSummary(items);
    var top := TopTen(groups);
    forall i | 0 <= i < |top|
      ensures Sold(items, top[i].productId)
      ensures top[i].quantity == QuantitySold(items, top[i].productId) && top[i].sales == SalesOf(items, top[i].productId)
    {
      var a :| 0 <= a < |groups| && groups[a] == top[i];
    }
  }

  /**
   * `top_products` of `sales_report`, from the transactions the database
   * yields: at most ten entries, highest sales first, one per product. Each
   * entry is for a product sold in a covered transaction and holds that
   * product's totals over all covered transactions, and no product sold in
   * a covered transaction but left out sells more than an entry kept.
   */
  method TopProducts(transactions: seq<Transaction>, start: int, end: int) returns (top: seq<ProductSales>)
    ensures top == TopTen(Grouped(ReportItems(transactions, start, end)))
    ensures |top| <= 10 && SortedBySales(top) && KeysUnique(top)
    ensures forall i :: 0 <= i < |top| ==>
      && SoldInRange(transactions, start, end, top[i].productId)
      && top[i].quantity == CoveredQuantity(transactions, start, end, top[i].productId)
      && top[i].sales == CoveredSales(transactions, start, end, top[i].productId)
    ensures forall id :: SoldInRange(transactions, start, end, id) && !Listed(top, id) ==>
      forall i :: 0 <= i < |top| ==> top[i].sales >= CoveredSales(transactions, start, end, id)
  {
    var items := ReportItems(transactions, start, end);
    var groups := AggregateSales(items);
    top := TopTen(groups);
    TopTenTotals(items);
    forall i | 0 <= i < |top|
      ensures SoldInRange(transactions, start, end, top[i].productId)
      ensures top[i].quantity == CoveredQuantity(transactions, start, end, top[i].productId)
      ensures top[i].sales == CoveredSales(transactions, start, end, top[i].productId)
    {
      ReportedIsSold(transactions, start, end, top[i].productId);
      ReportTotals(transactions, start, end, top[i].productId);
    }
    forall id | SoldInRange(transactions, start, end, id) && !Listed(top, id)
      ensures forall i :: 0 <= i < |top| ==> top[i].sales >= CoveredSales(transactions, start, end, id)
    {
      SoldIsReported(transactions, start, end, id);
      LeftOutSellsLess(items, id);
      ReportTotals(transactions, start, end, id);
    }
  }

  /** Inserting an entry for a new product keeps one entry per product. */
  lemma {:induction false} InsertKeepsKeysUnique(x: ProductSales, sorted: seq<ProductSales>)
    requires KeysUnique(sorted)
    requires forall j :: 0 <= j < |sorted| ==> sorted[j].productId != x.productId
    ensures KeysUnique(InsertBySales(x, sorted))
    decreases |sorted|
  {
    if sorted != [] && sorted[0].sales >= x.sales {
      var rest := InsertBySales(x, sorted[1..]);
      InsertKeepsKeysUnique(x, sorted[1..]);
      forall j | 0 <= j < |rest|
        ensures sorted[0].productId != rest[j].productId
      {
        assert rest[j] in multiset(sorted[1..]) + multiset{x};
        if rest[j] in multiset(sorted[1..]) {
          var m :| 0 <= m < |sorted[1..]| && sorted[1..][m] == rest[j];
          assert sorted[m + 1] == rest[j];
        }
      }
    }
  }

  /** Sorting keeps one entry per product. */
  lemma {:induction false} SortKeepsKeysUnique(s: seq<ProductSales>)
    ensures KeysUnique(s) ==> KeysUnique(SortBySales(s))
    decreases |s|
  {
    if s != [] && KeysUnique(s) {
      var front, x := s[..|s| - 1], s[|s| - 1];
      SortKeepsKeysUnique(front);
      var sortedFront := SortBySales(front);
      forall j | 0 <= j < |sortedFront|
        ensures sortedFront[j].productId != x.productId
      {
        assert sortedFront[j] in multiset(front);
        var m :| 0 <= m < |front| && front[m] == sortedFront[j];
        assert s[m] == front[m];
      }
      InsertKeepsKeysUnique(x, sortedFront);
    }
  }
}
