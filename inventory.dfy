/** The inventory screen: the raw materials it lists, the search over them,
    the three statistics cards and the stock adjustment dialog. */
module Inventory {
  import opened Types
  import opened Sums
  import opened Text
  import opened Seqs
  import Catalog

  predicate IsRawMaterial(p: Product) {
    p.isRawMaterial
  }

  function RawMaterials(products: seq<Product>): seq<Product> {
    Filter(products, IsRawMaterial)
  }

  function NameMatches(term: string): Product -> bool {
    (p: Product) => ContainsIgnoringCase(p.name, term)
  }

  /** filteredMaterials: every raw material for a blank term, else those
      whose lower-cased name contains the lower-cased term. */
  function FilteredMaterials(products: seq<Product>, term: string): seq<Product> {
    var raw := RawMaterials(products);
    if IsBlank(term) then raw else Filter(raw, NameMatches(term))
  }

  /** The search lists raw materials only: all of them for a blank term,
      else exactly those whose name contains the term ignoring case. */
  lemma FilteredMaterialsExact(products: seq<Product>, term: string, p: Product)
    ensures IsBlank(term) ==> (p in FilteredMaterials(products, term) <==> p in products && p.isRawMaterial)
    ensures !IsBlank(term) ==>
      (p in FilteredMaterials(products, term) <==>
         p in products && p.isRawMaterial && ContainsIgnoringCase(p.name, term))
  {
  }

  function StockValue(p: Product): real {
    p.cost * p.stock
  }

  datatype InventoryStats = InventoryStats(totalValue: real, itemCount: int, lowStockCount: int)

  function Stats(products: seq<Product>): InventoryStats {
    var raw := RawMaterials(products);
    InventoryStats(Sum(raw, StockValue), |raw|, |Filter(raw, Catalog.IsLow)|)
  }

  /** The cards count raw materials only: adding a sellable product leaves
      them as they were, adding a raw material adds its value, one item and,
      when it is low, one low-stock item. So the low-stock count never
      exceeds the item count. */
  lemma StatsStep(products: seq<Product>, p: Product)
    ensures var before := Stats(products);
      var after := Stats(products + [p]);
      && (!p.isRawMaterial ==> after == before)
      && (p.isRawMaterial ==>
            && after.totalValue == before.totalValue + p.cost * p.stock
            && after.itemCount == before.itemCount + 1
            && after.lowStockCount == before.lowStockCount + (if Catalog.IsLow(p) then 1 else 0))
      && 0 <= after.lowStockCount <= after.itemCount
  {
    var raw := RawMaterials(products);
    FilterSnoc(products, p, IsRawMaterial);
    if p.isRawMaterial {
      assert RawMaterials(products + [p]) == raw + [p];
      SumSnoc(raw, p, StockValue);
      FilterSnoc(raw, p, Catalog.IsLow);
    } else {
      assert RawMaterials(products + [p]) == raw;
    }
    assert |Filter(RawMaterials(products + [p]), Catalog.IsLow)| <= |RawMaterials(products + [p])|;
  }

  /** With stock and cost never negative, the total value is not negative. */
  lemma TotalValueNonNegative(products: seq<Product>)
    requires forall i :: 0 <= i < |products| ==> products[i].cost >= 0.0 && products[i].stock >= 0.0
    ensures Stats(products).totalValue >= 0.0
  {
    var raw := RawMaterials(products);
    forall i | 0 <= i < |raw| ensures StockValue(raw[i]) >= 0.0 {
      assert raw[i] in products;
      Catalog.NonNegativeProduct(raw[i].cost, raw[i].stock);
    }
    SumNonNegative(raw, StockValue);
  }

  /** The stock dialog's save: an empty or NaN entry (`None`) or a negative
      one is refused; otherwise the product is saved with the new stock. */
  function AdjustStock(product: Product, entry: Option<real>): (r: Option<Product>)
    ensures r.None? <==> entry.None? || entry.value < 0.0
    ensures r.Some? ==> r.value.stock == entry.value && r.value.stock >= 0.0
  {
    if entry.None? || entry.value < 0.0 then None else Some(product.(stock := entry.value))
  }

  /** An accepted adjustment changes the stock and nothing else, and
      re-entering the current stock saves the product unchanged. */
  lemma AdjustStockOnlyStock(product: Product, entry: Option<real>)
    ensures var r := AdjustStock(product, entry);
      r.Some? ==> r.value.(stock := product.stock) == product
    ensures product.stock >= 0.0 ==> AdjustStock(product, Some(product.stock)) == Some(product)
  {
  }
}
