/** The stock movements of a sale. Committing a sale lowers, and canceling
    it raises, each product's stock by the sale's demand on that product:
    the quantities of the lines that sell the product directly, plus, for
    every line that sells a recipe still in the catalogue, the ingredient
    quantity times the line quantity. */
module StockLedger {
  import opened Types

  /** Demand of `ings` (sold `lineQuantity` times) on product `pid`. */
  function IngredientDemand(ings: seq<Ingredient>, pid: int, lineQuantity: real): real {
    if |ings| == 0 then 0.0
    else
      IngredientDemand(ings[..|ings| - 1], pid, lineQuantity)
      + (if ings[|ings| - 1].productId == pid then ings[|ings| - 1].quantity * lineQuantity else 0.0)
  }

  /** Demand of one cart line on product `pid`; a recipe missing from the
      catalogue demands nothing. */
  function LineDemand(item: CartItem, recipes: map<int, Recipe>, pid: int): real {
    match item.itemType
    case ProductItem => if item.id == pid then item.quantity else 0.0
    case RecipeItem =>
      if item.id in recipes then IngredientDemand(recipes[item.id].ingredients, pid, item.quantity) else 0.0
  }

  function Demand(items: seq<CartItem>, recipes: map<int, Recipe>, pid: int): real {
    if |items| == 0 then 0.0
    else Demand(items[..|items| - 1], recipes, pid) + LineDemand(items[|items| - 1], recipes, pid)
  }

  function IngredientIds(ings: seq<Ingredient>): set<int> {
    set i | 0 <= i < |ings| :: ings[i].productId
  }

  /** The products a line refers to. */
  function LineProducts(item: CartItem, recipes: map<int, Recipe>): set<int> {
    match item.itemType
    case ProductItem => {item.id}
    case RecipeItem => if item.id in recipes then IngredientIds(recipes[item.id].ingredients) else {}
  }

  /** The products whose stock a sale of `items` touches. */
  function Touched(items: seq<CartItem>, recipes: map<int, Recipe>): set<int> {
    if |items| == 0 then {}
    else Touched(items[..|items| - 1], recipes) + LineProducts(items[|items| - 1], recipes)
  }

  /** `stockUpdates.get(pid) || 0`. */
  function Get(updates: map<int, real>, pid: int): real {
    if pid in updates then updates[pid] else 0.0
  }

  /** The `Map<productId, quantity>` both `processSale` and `cancelSale`
      fill: one entry per touched product, holding its whole demand. */
  method CollectStockUpdates(items: seq<CartItem>, recipes: map<int, Recipe>) returns (updates: map<int, real>)
    ensures updates.Keys == Touched(items, recipes)
    ensures forall pid :: Get(updates, pid) == Demand(items, recipes, pid)
  {
    updates := map[];
    var i := 0;
    while i < |items|
      invariant 0 <= i <= |items|
      invariant updates.Keys == Touched(items[..i], recipes)
      invariant forall pid :: Get(updates, pid) == Demand(items[..i], recipes, pid)
    {
      assert items[..i + 1][..i] == items[..i];
      updates := AddLine(updates, items[i], recipes);
      i := i + 1;
    }
    assert items[..i] == items;
  }

  /** One iteration of the outer `forEach`: adds one line's demand. */
  method AddLine(updates: map<int, real>, item: CartItem, recipes: map<int, Recipe>) returns (result: map<int, real>)
    ensures result.Keys == updates.Keys + LineProducts(item, recipes)
    ensures forall pid :: Get(result, pid) == Get(updates, pid) + LineDemand(item, recipes, pid)
  {
    if item.itemType == ProductItem {
      result := updates[item.id := Get(updates, item.id) + item.quantity];
    } else if item.id in recipes {
      result := AddIngredients(updates, recipes[item.id].ingredients, item.quantity);
    } else {
      result := updates;
    }
  }

  /** The inner `forEach` over a recipe's ingredients. */
  method AddIngredients(updates: map<int, real>, ings: seq<Ingredient>, lineQuantity: real) returns (result: map<int, real>)
    ensures result.Keys == updates.Keys + IngredientIds(ings)
    ensures forall pid :: Get(result, pid) == Get(updates, pid) + IngredientDemand(ings, pid, lineQuantity)
  {
    result := updates;
    var j := 0;
    while j < |ings|
      invariant 0 <= j <= |ings|
      invariant result.Keys == updates.Keys + IngredientIds(ings[..j])
      invariant forall pid :: Get(result, pid) == Get(updates, pid) + IngredientDemand(ings[..j], pid, lineQuantity)
    {
      var ing := ings[j];
      assert ings[..j + 1][..j] == ings[..j];
      assert IngredientIds(ings[..j + 1]) == IngredientIds(ings[..j]) + {ing.productId} by {
        assert ings[..j + 1][j] == ing;
      }
      ghost var before := result;
      result := result[ing.productId := Get(result, ing.productId) + ing.quantity * lineQuantity];
      forall pid
        ensures Get(result, pid) == Get(updates, pid) + IngredientDemand(ings[..j + 1], pid, lineQuantity)
      {
        assert Get(result, pid) == Get(before, pid) + (if ing.productId == pid then ing.quantity * lineQuantity else 0.0);
      }
      j := j + 1;
    }
    assert ings[..j] == ings;
  }

  /** Nothing outside `Touched` is demanded. */
  lemma {:induction false} UntouchedNotDemanded(items: seq<CartItem>, recipes: map<int, Recipe>, pid: int)
    requires pid !in Touched(items, recipes)
    ensures Demand(items, recipes, pid) == 0.0
    decreases |items|
  {
    if |items| > 0 {
      UntouchedNotDemanded(items[..|items| - 1], recipes, pid);
      var item := items[|items| - 1];
      if item.itemType == RecipeItem && item.id in recipes {
        IngredientsNotDemanded(recipes[item.id].ingredients, pid, item.quantity);
      }
    }
  }

  lemma {:induction false} IngredientsNotDemanded(ings: seq<Ingredient>, pid: int, lineQuantity: real)
    requires pid !in IngredientIds(ings)
    ensures IngredientDemand(ings, pid, lineQuantity) == 0.0
    decreases |ings|
  {
    if |ings| > 0 {
      assert IngredientIds(ings[..|ings| - 1]) <= IngredientIds(ings) by {
        forall x | x in IngredientIds(ings[..|ings| - 1]) ensures x in IngredientIds(ings) {
          var k :| 0 <= k < |ings| - 1 && ings[..|ings| - 1][k].productId == x;
          assert ings[k].productId == x;
        }
      }
      IngredientsNotDemanded(ings[..|ings| - 1], pid, lineQuantity);
      assert ings[|ings| - 1].productId in IngredientIds(ings);
    }
  }

  /** Demand is additive over the lines of a cart. */
  lemma {:induction false} DemandAppend(a: seq<CartItem>, b: seq<CartItem>, recipes: map<int, Recipe>, pid: int)
    ensures Demand(a + b, recipes, pid) == Demand(a, recipes, pid) + Demand(b, recipes, pid)
    decreases |b|
  {
    if |b| == 0 {
      assert a + b == a;
    } else {
      assert (a + b)[..|a + b| - 1] == a + b[..|b| - 1];
      DemandAppend(a, b[..|b| - 1], recipes, pid);
    }
  }

  /** The product map after a commit: every product's stock lowered by its
      demand (by 0 for products the sale does not touch). */
  function AfterCommit(products: map<int, Product>, items: seq<CartItem>, recipes: map<int, Recipe>): map<int, Product> {
    map pid | pid in products :: products[pid].(stock := products[pid].stock - Demand(items, recipes, pid))
  }

  /** The product map after a cancel: every product's stock raised by its demand. */
  function AfterCancel(products: map<int, Product>, items: seq<CartItem>, recipes: map<int, Recipe>): map<int, Product> {
    map pid | pid in products :: products[pid].(stock := products[pid].stock + Demand(items, recipes, pid))
  }

  /** `db.products.where('id').equals(pid).modify(...)` for every entry of
      the update map; entries for products that no longer exist change
      nothing. `restock` selects `+=` (cancel) over `-=` (commit). */
  method ApplyStockUpdates(products: map<int, Product>, updates: map<int, real>, restock: bool)
    returns (result: map<int, Product>)
    ensures result.Keys == products.Keys
    ensures forall pid :: pid in products ==>
      result[pid] == products[pid].(stock := if restock then products[pid].stock + Get(updates, pid)
                                             else products[pid].stock - Get(updates, pid))
  {
    result := products;
    var pending := updates.Keys;
    while exists pid :: pid in pending
      invariant pending <= updates.Keys
      invariant result.Keys == products.Keys
      invariant forall pid :: pid in products ==>
        result[pid] == (if pid in pending then products[pid]
                        else products[pid].(stock := if restock then products[pid].stock + Get(updates, pid)
                                                     else products[pid].stock - Get(updates, pid)))
      decreases |pending|
    {
      var pid :| pid in pending;
      if pid in result {
        var q := updates[pid];
        result := result[pid := result[pid].(stock := if restock then result[pid].stock + q else result[pid].stock - q)];
      }
      pending := pending - {pid};
    }
    assert pending == {};
  }

  /** The stock step of `processSale`: collect the updates, then lower. */
  method CommitStock(products: map<int, Product>, items: seq<CartItem>, recipes: map<int, Recipe>)
    returns (result: map<int, Product>)
    ensures result == AfterCommit(products, items, recipes)
  {
    var updates := CollectStockUpdates(items, recipes);
    result := ApplyStockUpdates(products, updates, false);
  }

  /** The stock step of `cancelSale`: collect the updates, then raise. */
  method RestoreStock(products: map<int, Product>, items: seq<CartItem>, recipes: map<int, Recipe>)
    returns (result: map<int, Product>)
    ensures result == AfterCancel(products, items, recipes)
  {
    var updates := CollectStockUpdates(items, recipes);
    result := ApplyStockUpdates(products, updates, true);
  }

  /** A product the sale does not refer to keeps its record unchanged. */
  lemma UnreferencedProductUnchanged(products: map<int, Product>, items: seq<CartItem>, recipes: map<int, Recipe>, pid: int)
    requires pid in products && pid !in Touched(items, recipes)
    ensures AfterCommit(products, items, recipes)[pid] == products[pid]
    ensures AfterCancel(products, items, recipes)[pid] == products[pid]
  {
    UntouchedNotDemanded(items, recipes, pid);
  }

  /** Commit then cancel with the same recipes restores every stock level. */
  lemma CommitThenCancelRestoresStock(products: map<int, Product>, items: seq<CartItem>, recipes: map<int, Recipe>)
    ensures AfterCancel(AfterCommit(products, items, recipes), items, recipes) == products
  {
    var after := AfterCancel(AfterCommit(products, items, recipes), items, recipes);
    assert after.Keys == products.Keys;
    forall pid | pid in products ensures after[pid] == products[pid] {
      assert after[pid].stock == products[pid].stock;
    }
  }

  /** A product sold directly loses exactly the sold quantity; a recipe
      line loses each ingredient's quantity times the line quantity. */
  lemma DirectAndRecipeDemand(products: map<int, Product>, recipe: Recipe, direct: CartItem, viaRecipe: CartItem, pid: int)
    requires pid in products
    requires direct.itemType == ProductItem && direct.id == pid
    requires viaRecipe.itemType == RecipeItem && viaRecipe.id == recipe.id
    requires recipe.ingredients == [Ingredient(pid, 0.25)]
    ensures AfterCommit(products, [direct, viaRecipe], map[recipe.id := recipe])[pid].stock
            == products[pid].stock - direct.quantity - 0.25 * viaRecipe.quantity
  {
    var items := [direct, viaRecipe];
    var recipes := map[recipe.id := recipe];
    assert items[..1] == [direct];
    assert items[..1][..0] == [];
    assert recipe.ingredients[..0] == [];
    assert IngredientDemand(recipe.ingredients, pid, viaRecipe.quantity) == 0.25 * viaRecipe.quantity;
    assert Demand(items[..1], recipes, pid) == direct.quantity;
    assert Demand(items, recipes, pid) == direct.quantity + 0.25 * viaRecipe.quantity;
  }

  /** Cancel resolves recipes from the current catalogue: if a recipe's
      ingredient changed between commit and cancel, the stock does not come
      back. Selling one unit of a recipe made from product 1, then
      switching the recipe to product 2 and canceling, leaves product 1
      one unit short and product 2 one unit over. */
  lemma CancelAfterRecipeChangeDoesNotRestore(p1: Product, p2: Product)
    requires p1.id == 1 && p2.id == 2
    ensures var products := map[1 := p1, 2 := p2];
      var line := CartItem("r", 9, "recipe", 5.0, 1.0, 1.0, RecipeItem, [], "");
      var before := map[9 := Recipe(9, "recipe", 5.0, 1, [Ingredient(1, 1.0)], [])];
      var after := map[9 := Recipe(9, "recipe", 5.0, 1, [Ingredient(2, 1.0)], [])];
      var restored := AfterCancel(AfterCommit(products, [line], before), [line], after);
      restored[1].stock == p1.stock - 1.0 && restored[2].stock == p2.stock + 1.0
  {
    var line := CartItem("r", 9, "recipe", 5.0, 1.0, 1.0, RecipeItem, [], "");
    var before := map[9 := Recipe(9, "recipe", 5.0, 1, [Ingredient(1, 1.0)], [])];
    var after := map[9 := Recipe(9, "recipe", 5.0, 1, [Ingredient(2, 1.0)], [])];
    assert [line][..0] == [];
    assert [Ingredient(1, 1.0)][..0] == [];
    assert [Ingredient(2, 1.0)][..0] == [];
    assert Demand([line], before, 1) == 1.0;
    assert Demand([line], before, 2) == 0.0;
    assert Demand([line], after, 1) == 0.0;
    assert Demand([line], after, 2) == 1.0;
  }
}
