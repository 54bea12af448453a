/** The reports screen: the completed sales in the chosen range, their
    financial totals, the best-selling items, the open balances and the
    discount column of the exported summary. */
module Reports {
  import opened Types
  import opened Sums
  import opened Seqs
  import opened Pricing
  import opened SalesHistory
  import Store

  /** The user filter; `None` is `all`. The date range is not part of this
      model. */
  predicate ByUser(userId: Option<int>, sale: Sale) {
    userId.None? || sale.userId == userId.value
  }

  function ByUserFn(userId: Option<int>): Sale -> bool {
    (sale: Sale) => ByUser(userId, sale)
  }

  /** completedSales, then the user filter. */
  function ReportSales(sales: seq<Sale>, userId: Option<int>): seq<Sale> {
    Filter(CompletedSales(sales), ByUserFn(userId))
  }

  /** A sale enters the report exactly when it is completed and passes the
      user filter. */
  lemma ReportSalesExact(sales: seq<Sale>, userId: Option<int>, sale: Sale)
    ensures sale in ReportSales(sales, userId) <==> sale in sales && sale.status == Completed && ByUser(userId, sale)
    ensures forall i :: 0 <= i < |ReportSales(sales, userId)| ==> ReportSales(sales, userId)[i].status == Completed
  {
    var r := ReportSales(sales, userId);
    forall i | 0 <= i < |r| ensures r[i].status == Completed {
      assert r[i] in CompletedSales(sales);
    }
  }

  function TaxOf(sale: Sale): real { sale.taxAmount }

  datatype ReportData = ReportData(totalRevenue: real, totalCost: real, grossProfit: real,
                                   invoiceCount: int, totalTax: real)

  function Report(filtered: seq<Sale>): ReportData {
    var revenue := Sum(filtered, AmountOf);
    var cost := Sum(filtered, CostOf);
    ReportData(revenue, cost, revenue - cost, |filtered|, Sum(filtered, TaxOf))
  }

  /** The gross profit is the sum of each sale's margin; over completed
      sales it is the profit the history screen shows for the same list. */
  lemma GrossProfitIsSumOfMargins(filtered: seq<Sale>)
    ensures Report(filtered).grossProfit == Sum(filtered, ProfitOf)
    ensures (forall i :: 0 <= i < |filtered| ==> filtered[i].status == Completed) ==>
      Report(filtered) == ReportData(SalesSummary(filtered).total, Sum(filtered, CostOf),
                                     SalesSummary(filtered).profit, SalesSummary(filtered).count,
                                     Sum(filtered, TaxOf))
  {
    ProfitIsRevenueLessCost(filtered);
    if forall i :: 0 <= i < |filtered| ==> filtered[i].status == Completed {
      FilterKeepsAll(filtered, IsCompleted);
    }
  }

  // ---------------------------------------------------------------------
  // Best sellers (topItems)

  /** The `${type}-${id}` key the counts are grouped by. */
  datatype ItemKey = ItemKey(itemType: ItemType, id: int)

  /** One best-seller row; the key is kept alongside the name and count. */
  datatype ItemCount = ItemCount(key: ItemKey, name: string, count: real)

  function KeyOf(item: CartItem): ItemKey {
    ItemKey(item.itemType, item.id)
  }

  function LineCount(key: ItemKey): CartItem -> real {
    (item: CartItem) => if KeyOf(item) == key then item.quantity else 0.0
  }

  function SaleCount(key: ItemKey): Sale -> real {
    (sale: Sale) => Sum(sale.items, LineCount(key))
  }

  /** Units of one item sold over the given sales. */
  function Quantity(sales: seq<Sale>, key: ItemKey): real {
    Sum(sales, SaleCount(key))
  }

  function LineKeys(items: seq<CartItem>): set<ItemKey> {
    if |items| == 0 then {} else LineKeys(items[..|items| - 1]) + {KeyOf(items[|items| - 1])}
  }

  function SaleKeys(sales: seq<Sale>): set<ItemKey> {
    if |sales| == 0 then {} else SaleKeys(sales[..|sales| - 1]) + LineKeys(sales[|sales| - 1].items)
  }

  function CountKey(e: ItemCount): real { e.count }

  /** Every counted key maps to its own row, holding the quantity over the
      finished sales plus the lines of the current sale seen so far. */
  ghost predicate Counted(counts: map<ItemKey, ItemCount>, done: seq<Sale>, items: seq<CartItem>) {
    forall k :: k in counts ==> (counts[k].key == k && counts[k].count == Quantity(done, k) + Sum(items, LineCount(k)))
  }

  ghost predicate CountedSales(counts: map<ItemKey, ItemCount>, sales: seq<Sale>) {
    forall k :: k in counts ==> (counts[k].key == k && counts[k].count == Quantity(sales, k))
  }

  /** `order` lists each counted key once, in the order first seen. */
  ghost predicate Ordered(counts: map<ItemKey, ItemCount>, order: seq<ItemKey>) {
    && (forall k :: k in counts <==> k in order)
    && (forall a, b :: 0 <= a < b < |order| ==> order[a] != order[b])
  }

  /** `if (!itemCounts[key]) itemCounts[key] = {name, count: 0}; itemCounts[key].count += quantity`. */
  function Bump(counts: map<ItemKey, ItemCount>, item: CartItem): map<ItemKey, ItemCount> {
    var key := KeyOf(item);
    if key in counts then counts[key := counts[key].(count := counts[key].count + item.quantity)]
    else counts[key := ItemCount(key, item.name, item.quantity)]
  }

  lemma BumpCounts(counts: map<ItemKey, ItemCount>, done: seq<Sale>, items: seq<CartItem>, item: CartItem)
    requires counts.Keys == SaleKeys(done) + LineKeys(items)
    requires Counted(counts, done, items)
    ensures Bump(counts, item).Keys == SaleKeys(done) + LineKeys(items + [item])
    ensures Counted(Bump(counts, item), done, items + [item])
  {
    assert (items + [item])[..|items|] == items;
    var key := KeyOf(item);
    if key !in counts {
      QuantityOfUnseen(done, key);
      LineCountOfUnseen(items, key);
    }
    var c := Bump(counts, item);
    forall k | k in c
      ensures c[k].key == k && c[k].count == Quantity(done, k) + Sum(items + [item], LineCount(k))
    {
      SumSnoc(items, item, LineCount(k));
    }
  }

  lemma BumpOrder(counts: map<ItemKey, ItemCount>, order: seq<ItemKey>, item: CartItem)
    requires Ordered(counts, order)
    ensures Ordered(Bump(counts, item), if KeyOf(item) in counts then order else order + [KeyOf(item)])
  {
  }

  /** One sale's lines added to the running counts. */
  method AddItems(counts: map<ItemKey, ItemCount>, order: seq<ItemKey>, done: seq<Sale>, items: seq<CartItem>)
    returns (counts': map<ItemKey, ItemCount>, order': seq<ItemKey>)
    requires counts.Keys == SaleKeys(done)
    requires CountedSales(counts, done)
    requires Ordered(counts, order)
    ensures counts'.Keys == SaleKeys(done) + LineKeys(items)
    ensures Counted(counts', done, items)
    ensures Ordered(counts', order')
  {
    counts', order' := counts, order;
    assert items[..0] == [];
    var j := 0;
    while j < |items|
      invariant 0 <= j <= |items|
      invariant counts'.Keys == SaleKeys(done) + LineKeys(items[..j])
      invariant Counted(counts', done, items[..j])
      invariant Ordered(counts', order')
    {
      assert items[..j + 1] == items[..j] + [items[j]];
      BumpCounts(counts', done, items[..j], items[j]);
      BumpOrder(counts', order', items[j]);
      if KeyOf(items[j]) !in counts' {
        order' := order' + [KeyOf(items[j])];
      }
      counts' := Bump(counts', items[j]);
      j := j + 1;
    }
    assert items[..j] == items;
  }

  lemma {:induction false} LineCountOfUnseen(items: seq<CartItem>, key: ItemKey)
    requires key !in LineKeys(items)
    ensures Sum(items, LineCount(key)) == 0.0
    decreases |items|
  {
    if |items| > 0 {
      LineCountOfUnseen(items[..|items| - 1], key);
    }
  }

  lemma {:induction false} QuantityOfUnseen(sales: seq<Sale>, key: ItemKey)
    requires key !in SaleKeys(sales)
    ensures Quantity(sales, key) == 0.0
    decreases |sales|
  {
    if |sales| > 0 {
      QuantityOfUnseen(sales[..|sales| - 1], key);
      LineCountOfUnseen(sales[|sales| - 1].items, key);
    }
  }

  /** A finished sale's lines fold into the per-sale totals. */
  lemma SaleDone(counts: map<ItemKey, ItemCount>, done: seq<Sale>, sale: Sale)
    requires Counted(counts, done, sale.items)
    ensures CountedSales(counts, done + [sale])
  {
    forall k | k in counts
      ensures counts[k].count == Quantity(done + [sale], k)
    {
      SumSnoc(done, sale, SaleCount(k));
    }
  }

  /** The `forEach` loops of topItems: for every key seen, the summed
      quantities over all the sales' lines. */
  method CountItems(sales: seq<Sale>) returns (counts: map<ItemKey, ItemCount>, order: seq<ItemKey>)
    ensures counts.Keys == SaleKeys(sales)
    ensures CountedSales(counts, sales)
    ensures Ordered(counts, order)
  {
    counts, order := map[], [];
    var i := 0;
    while i < |sales|
      invariant 0 <= i <= |sales|
      invariant counts.Keys == SaleKeys(sales[..i])
      invariant CountedSales(counts, sales[..i])
      invariant Ordered(counts, order)
    {
      assert sales[..i + 1] == sales[..i] + [sales[i]];
      assert sales[..i + 1][..i] == sales[..i];
      counts, order := AddItems(counts, order, sales[..i], sales[i].items);
      SaleDone(counts, sales[..i], sales[i]);
      i := i + 1;
    }
    assert sales[..i] == sales;
  }

  /** `Object.values(itemCounts)`, in the order the keys were first seen. */
  method Values(counts: map<ItemKey, ItemCount>, order: seq<ItemKey>) returns (entries: seq<ItemCount>)
    requires forall k :: k in order ==> k in counts
    ensures |entries| == |order|
    ensures forall u :: 0 <= u < |order| ==> entries[u] == counts[order[u]]
  {
    entries := [];
    var t := 0;
    while t < |order|
      invariant 0 <= t <= |order|
      invariant |entries| == t
      invariant forall u :: 0 <= u < t ==> entries[u] == counts[order[u]]
    {
      entries := entries + [counts[order[t]]];
      t := t + 1;
    }
  }

  /** topItems: the ten best-selling items, largest quantity first. Every
      row is an item that was sold with its total quantity, no item appears
      twice, and an item left out sold no more than any row shown. */
  method TopItems(sales: seq<Sale>) returns (top: seq<ItemCount>)
    ensures |top| <= 10
    ensures SortedDesc(top, CountKey)
    ensures forall e :: e in top ==> e.key in SaleKeys(sales) && e.count == Quantity(sales, e.key)
    ensures forall a, b :: 0 <= a < b < |top| ==> top[a].key != top[b].key
    ensures forall k :: k in SaleKeys(sales) ==>
      (exists e :: e in top && e.key == k)
      || (|top| == 10 && forall i :: 0 <= i < |top| ==> top[i].count >= Quantity(sales, k))
  {
    var counts, order := CountItems(sales);
    var entries := Values(counts, order);
    var sorted := SortDesc(entries, CountKey);
    top := Take(sorted, 10);
    TakeSorted(sorted, CountKey, 10);
    TopRows(sales, counts, order, entries, sorted, top);
  }

  lemma TopRows(sales: seq<Sale>, counts: map<ItemKey, ItemCount>, order: seq<ItemKey>,
                entries: seq<ItemCount>, sorted: seq<ItemCount>, top: seq<ItemCount>)
    requires counts.Keys == SaleKeys(sales)
    requires CountedSales(counts, sales)
    requires Ordered(counts, order)
    requires |entries| == |order|
    requires forall u :: 0 <= u < |order| ==> entries[u] == counts[order[u]]
    requires SortedDesc(sorted, CountKey) && multiset(sorted) == multiset(entries)
    requires top == Take(sorted, 10)
    ensures forall e :: e in top ==> e.key in SaleKeys(sales) && e.count == Quantity(sales, e.key)
    ensures forall a, b :: 0 <= a < b < |top| ==> top[a].key != top[b].key
    ensures forall k :: k in SaleKeys(sales) ==>
      (exists e :: e in top && e.key == k)
      || (|top| == 10 && forall i :: 0 <= i < |top| ==> top[i].count >= Quantity(sales, k))
  {
    forall e | e in top
      ensures e.key in SaleKeys(sales) && e.count == Quantity(sales, e.key)
    {
      assert e in multiset(sorted);
      assert e in multiset(entries);
    }
    forall a, b | 0 <= a < b < |top|
      ensures top[a].key != top[b].key
    {
      DistinctKeys(entries, sorted, order, counts, a, b);
    }
    forall k | k in SaleKeys(sales)
      ensures (exists e :: e in top && e.key == k)
        || (|top| == 10 && forall i :: 0 <= i < |top| ==> top[i].count >= Quantity(sales, k))
    {
      assert k in order;
      var u :| 0 <= u < |order| && order[u] == k;
      assert entries[u] in multiset(sorted);
      var w :| 0 <= w < |sorted| && sorted[w] == entries[u];
      if w < 10 {
        assert top[w] == sorted[w];
      }
    }
  }

  /** Entries built from distinct keys keep distinct keys after sorting. */
  lemma DistinctKeys(entries: seq<ItemCount>, sorted: seq<ItemCount>, order: seq<ItemKey>,
                     counts: map<ItemKey, ItemCount>, a: int, b: int)
    requires forall k :: k in counts ==> counts[k].key == k
    requires Ordered(counts, order)
    requires |entries| == |order|
    requires forall u :: 0 <= u < |order| ==> entries[u] == counts[order[u]]
    requires multiset(sorted) == multiset(entries)
    requires 0 <= a < b < |sorted|
    ensures sorted[a].key != sorted[b].key
  {
    if sorted[a].key == sorted[b].key {
      assert sorted[a] in multiset(entries) && sorted[b] in multiset(entries);
      var p :| 0 <= p < |entries| && entries[p] == sorted[a];
      var q :| 0 <= q < |entries| && entries[q] == sorted[b];
      assert entries[p] == counts[order[p]] && entries[q] == counts[order[q]];
      assert sorted[a] == sorted[b];
      assert multiset(sorted)[sorted[a]] >= 2 by {
        assert sorted == sorted[..a] + [sorted[a]] + sorted[a + 1..b] + [sorted[b]] + sorted[b + 1..];
      }
      CountOnce(entries, order, counts, p);
    }
  }

  lemma {:induction false} CountOnce(entries: seq<ItemCount>, order: seq<ItemKey>,
                                     counts: map<ItemKey, ItemCount>, p: int)
    requires forall k :: k in counts ==> counts[k].key == k
    requires Ordered(counts, order)
    requires |entries| == |order|
    requires forall u :: 0 <= u < |order| ==> entries[u] == counts[order[u]]
    requires 0 <= p < |entries|
    ensures multiset(entries)[entries[p]] <= 1
    decreases |entries|
  {
    var n := |entries| - 1;
    assert entries == entries[..n] + [entries[n]];
    assert multiset(entries) == multiset(entries[..n]) + multiset{entries[n]};
    if p < n {
      CountOnce(entries[..n], order[..n], counts - {order[n]}, p);
      assert entries[n].key == order[n] && entries[p].key == order[p];
    } else {
      forall u | 0 <= u < n ensures entries[u] != entries[n] {
        assert entries[u].key == order[u] && entries[n].key == order[n];
      }
      assert entries[n] !in multiset(entries[..n]);
    }
  }

  // ---------------------------------------------------------------------
  // Open balances

  function CustomersWithBalance(customers: seq<Customer>): seq<Customer> {
    Filter(customers, (c: Customer) => c.balance != 0.0)
  }

  function SuppliersWithBalance(suppliers: seq<Supplier>): seq<Supplier> {
    Filter(suppliers, (s: Supplier) => s.balance != 0.0)
  }

  /** The balance lists hold exactly the parties whose balance is not zero. */
  lemma BalanceListsExact(customers: seq<Customer>, suppliers: seq<Supplier>, c: Customer, s: Supplier)
    ensures c in CustomersWithBalance(customers) <==> c in customers && c.balance != 0.0
    ensures s in SuppliersWithBalance(suppliers) <==> s in suppliers && s.balance != 0.0
  {
  }

  // ---------------------------------------------------------------------
  // The exported discount column

  /** As written: everything between the subtotal and the pre-tax total. */
  function ExportedDiscountAsWritten(sale: Sale): real {
    sale.subTotal - (sale.totalAmount - sale.taxAmount)
  }

  /** The column as intended: the delivery fee is not a discount. */
  function ExportedDiscount(sale: Sale): real {
    sale.subTotal - (sale.totalAmount - sale.taxAmount - sale.deliveryFee)
  }

  /** For a recorded sale whose discounts do not exceed the subtotal, the
      intended column is the general discount plus the loyalty discount. */
  lemma ExportedDiscountIsBothDiscounts(saleId: int, date: int, cart: seq<CartItem>, shop: ShopInfo,
                                        req: SaleRequest, user: User, shift: Option<Shift>)
    requires var p := PriceSale(cart, shop, req); p.totalAfterGeneralDiscount - p.discountFromPoints >= 0.0
    ensures var sale := Store.SaleRecord(saleId, date, cart, shop, req, user, shift);
      var p := PriceSale(cart, shop, req);
      ExportedDiscount(sale) == p.generalDiscount + p.discountFromPoints
  {
    TaxableIsWhatDiscountsLeave(cart, shop, req);
  }

  /** As written the column also subtracts the delivery fee: a sale of 100
      with no discount and a fee of 10 exports a discount of -10. */
  lemma ExportedDiscountCountsDeliveryFee(user: User)
    ensures var shop := ShopInfo(false, 0.0, 1.0, false, 0.0);
      var req := SaleRequest(None, PaymentDetails(110.0, 0.0, 0.0), 0, NoDiscount, 0.0, 10.0);
      var sale := Store.SaleRecord(1, 0, [ScenarioLine(100.0, 1.0)], shop, req, user, None);
      ExportedDiscountAsWritten(sale) == -10.0 && ExportedDiscount(sale) == 0.0
  {
    var shop := ShopInfo(false, 0.0, 1.0, false, 0.0);
    var req := SaleRequest(None, PaymentDetails(110.0, 0.0, 0.0), 0, NoDiscount, 0.0, 10.0);
    var cart := [ScenarioLine(100.0, 1.0)];
    SingleLineTotals(ScenarioLine(100.0, 1.0));
    assert SubTotal(cart) == 100.0;
    var p := PriceSale(cart, shop, req);
    assert p.taxableAmount == 100.0 && p.taxAmount == 0.0;
    assert p.totalAmount == 110.0;
    var sale := Store.SaleRecord(1, 0, cart, shop, req, user, None);
    assert sale.subTotal == 100.0 && sale.totalAmount == 110.0 && sale.taxAmount == 0.0 && sale.deliveryFee == 10.0;
  }
}
