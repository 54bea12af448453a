/** The sales history screen: which sales the filters keep, the order they
    are listed in, the summary over them, and the discounts the details
    dialog re-derives from a stored sale. */
module SalesHistory {
  import opened Types
  import opened Sums
  import opened Text
  import opened Seqs
  import opened Pricing
  import Store

  /** The filter bar; `None` is the `all` choice. The date range is not
      part of this model. */
  datatype HistoryFilter = HistoryFilter(
    customerId: Option<int>,
    userId: Option<int>,
    status: Option<SaleStatus>,
    searchTerm: string
  )

  function Digit(d: int): char
    requires 0 <= d < 10
  {
    "0123456789"[d]
  }

  function NatText(n: nat): string
    decreases n
  {
    if n < 10 then [Digit(n)] else NatText(n / 10) + [Digit(n % 10)]
  }

  /** `id.toString()`. */
  function IdText(id: int): string {
    if id < 0 then "-" + NatText(-id) else NatText(id)
  }

  function CustomerName(customers: seq<Customer>, id: int): Option<string>
    decreases |customers|
  {
    if |customers| == 0 then None
    else if customers[0].id == id then Some(customers[0].name)
    else CustomerName(customers[1..], id)
  }

  /** The search box: the sale number contains the lower-cased term, or the
      sale's customer exists and its lower-cased name contains it. */
  predicate SearchHit(sale: Sale, customers: seq<Customer>, term: string) {
    var lower := ToLower(term);
    || Contains(IdText(sale.id), lower)
    || (Attached(sale.customerId)
        && CustomerName(customers, sale.customerId.value).Some?
        && Contains(ToLower(CustomerName(customers, sale.customerId.value).value), lower))
  }

  predicate Shown(f: HistoryFilter, customers: seq<Customer>, sale: Sale) {
    && (f.customerId.Some? ==> sale.customerId == f.customerId)
    && (f.userId.Some? ==> sale.userId == f.userId.value)
    && (f.status.Some? ==> sale.status == f.status.value)
    && (!IsBlank(f.searchTerm) ==> SearchHit(sale, customers, f.searchTerm))
  }

  function ShownBy(f: HistoryFilter, customers: seq<Customer>): Sale -> bool {
    (sale: Sale) => Shown(f, customers, sale)
  }

  function DateKey(sale: Sale): real {
    sale.date as real
  }

  /** filteredSales: the kept sales, newest first. */
  function FilteredSales(sales: seq<Sale>, f: HistoryFilter, customers: seq<Customer>): seq<Sale> {
    SortDesc(Filter(sales, ShownBy(f, customers)), DateKey)
  }

  /** The list holds exactly the sales the filters accept, each as often as
      it was recorded, newest first. */
  lemma FilteredSalesExact(sales: seq<Sale>, f: HistoryFilter, customers: seq<Customer>, sale: Sale)
    ensures var r := FilteredSales(sales, f, customers);
      && SortedDesc(r, DateKey)
      && (sale in r <==> sale in sales && Shown(f, customers, sale))
      && multiset(r)[sale] == if Shown(f, customers, sale) then multiset(sales)[sale] else 0
  {
    FilterMultiset(sales, ShownBy(f, customers), sale);
  }

  /** With every filter at `all` and an empty search, every sale is listed. */
  lemma AllFiltersKeepEverything(sales: seq<Sale>, customers: seq<Customer>, term: string)
    requires IsBlank(term)
    ensures multiset(FilteredSales(sales, HistoryFilter(None, None, None, term), customers)) == multiset(sales)
  {
    FilterKeepsAll(sales, ShownBy(HistoryFilter(None, None, None, term), customers));
  }

  predicate IsCompleted(sale: Sale) {
    sale.status == Completed
  }

  function CompletedSales(sales: seq<Sale>): seq<Sale> {
    Filter(sales, IsCompleted)
  }

  function AmountOf(sale: Sale): real { sale.totalAmount }
  function CostOf(sale: Sale): real { sale.totalCost }
  function ProfitOf(sale: Sale): real { sale.totalAmount - sale.totalCost }

  datatype Summary = Summary(total: real, profit: real, count: int)

  function SalesSummary(filtered: seq<Sale>): Summary {
    var completed := CompletedSales(filtered);
    Summary(Sum(completed, AmountOf), Sum(completed, ProfitOf), |filtered|)
  }

  /** Profit is revenue less cost over the completed sales. */
  lemma {:induction false} ProfitIsRevenueLessCost(sales: seq<Sale>)
    ensures Sum(sales, ProfitOf) == Sum(sales, AmountOf) - Sum(sales, CostOf)
    decreases |sales|
  {
    if |sales| > 0 {
      ProfitIsRevenueLessCost(sales[..|sales| - 1]);
    }
  }

  /** A canceled sale is counted but adds nothing to the total or the
      profit; a completed one adds its amount and its margin. */
  lemma SummaryStep(filtered: seq<Sale>, sale: Sale)
    ensures var before := SalesSummary(filtered);
      var after := SalesSummary(filtered + [sale]);
      && after.count == before.count + 1
      && (sale.status == Canceled ==> after.total == before.total && after.profit == before.profit)
      && (sale.status == Completed ==>
            after.total == before.total + sale.totalAmount
            && after.profit == before.profit + sale.totalAmount - sale.totalCost)
  {
    FilterSnoc(filtered, sale, IsCompleted);
    SumSnoc(CompletedSales(filtered), sale, AmountOf);
    SumSnoc(CompletedSales(filtered), sale, ProfitOf);
  }

  /** The details dialog's general discount, re-derived from the stored type
      and entered value. */
  function ShownGeneralDiscount(sale: Sale): real {
    GeneralDiscount(sale.discountType, sale.discountValue, sale.subTotal)
  }

  /** The loyalty discount at the current point value. */
  function ShownLoyaltyDiscount(sale: Sale, shop: ShopInfo): real {
    sale.pointsRedeemed as real * shop.poundPerPoint
  }

  /** For a sale recorded by `processSale`, the dialog shows the discounts
      the sale was priced with, as long as the point value has not changed. */
  lemma DetailsReproduceCommit(saleId: int, date: int, cart: seq<CartItem>, shop: ShopInfo,
                               req: SaleRequest, user: User, shift: Option<Shift>)
    ensures var sale := Store.SaleRecord(saleId, date, cart, shop, req, user, shift);
      var p := PriceSale(cart, shop, req);
      && ShownGeneralDiscount(sale) == p.generalDiscount
      && ShownLoyaltyDiscount(sale, shop) == p.discountFromPoints
      && sale.subTotal - ShownGeneralDiscount(sale) == p.totalAfterGeneralDiscount
  {
  }

  /** The cancel button: the user may cancel sales and the sale is not
      canceled yet. */
  predicate CancelOffered(user: Option<User>, sale: Sale) {
    user.Some? && CanCancelSales in user.value.permissions && sale.status != Canceled
  }
}
