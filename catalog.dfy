/** Catalogue rules shared by the store and several screens: the cost of a
    recipe from the current product costs, the low-stock flag, and the
    toggle of an id in a selection list. */
module Catalog {
  import opened Types
  import opened Sums
  import opened Seqs

  /** One ingredient's cost; an ingredient whose product no longer exists
      costs nothing. */
  function IngredientCost(products: map<int, Product>, ing: Ingredient): real {
    if ing.productId in products then products[ing.productId].cost * ing.quantity else 0.0
  }

  function IngredientCostIn(products: map<int, Product>): Ingredient -> real {
    ing => IngredientCost(products, ing)
  }

  /** getRecipeCost, and the cost a recipe card shows. */
  function RecipeCost(recipe: Recipe, products: map<int, Product>): real {
    Sum(recipe.ingredients, IngredientCostIn(products))
  }

  function KnownIngredients(ings: seq<Ingredient>, products: map<int, Product>): (r: seq<Ingredient>)
    ensures forall i :: 0 <= i < |r| ==> r[i].productId in products && r[i] in ings
  {
    if |ings| == 0 then []
    else if ings[|ings| - 1].productId in products
    then KnownIngredients(ings[..|ings| - 1], products) + [ings[|ings| - 1]]
    else KnownIngredients(ings[..|ings| - 1], products)
  }

  /** Ingredients whose product is missing may as well not be there: the
      recipe cost is the sum of cost times quantity over the known ones. */
  lemma {:induction false} RecipeCostSkipsMissing(ings: seq<Ingredient>, products: map<int, Product>)
    ensures Sum(ings, IngredientCostIn(products)) == Sum(KnownIngredients(ings, products), IngredientCostIn(products))
    decreases |ings|
  {
    if |ings| > 0 {
      var init := ings[..|ings| - 1];
      var last := ings[|ings| - 1];
      RecipeCostSkipsMissing(init, products);
      if last.productId in products {
        SumSnoc(KnownIngredients(init, products), last, IngredientCostIn(products));
      }
    }
  }

  /** With non-negative costs and quantities the cost is non-negative,
      and so a recipe priced at least at its cost has a non-negative profit. */
  lemma RecipeCostNonNegative(recipe: Recipe, products: map<int, Product>)
    requires forall id :: id in products ==> products[id].cost >= 0.0
    requires forall i :: 0 <= i < |recipe.ingredients| ==> recipe.ingredients[i].quantity >= 0.0
    ensures RecipeCost(recipe, products) >= 0.0
  {
    forall i | 0 <= i < |recipe.ingredients|
      ensures IngredientCostIn(products)(recipe.ingredients[i]) >= 0.0
    {
      var ing := recipe.ingredients[i];
      if ing.productId in products {
        NonNegativeProduct(products[ing.productId].cost, ing.quantity);
      }
    }
    SumNonNegative(recipe.ingredients, IngredientCostIn(products));
  }

  lemma NonNegativeProduct(a: real, b: real)
    requires a >= 0.0 && b >= 0.0
    ensures a * b >= 0.0
  {
  }

  /** `typeof p.lowStockThreshold === 'number' && p.stock <= p.lowStockThreshold`. */
  predicate IsLow(p: Product) {
    p.lowStockThreshold.Some? && p.stock <= p.lowStockThreshold.value
  }

  /** `ids.filter(x => x !== id)`. */
  function RemoveId(ids: seq<int>, id: int): (r: seq<int>)
    ensures forall x :: x in r <==> x in ids && x != id
    ensures |r| <= |ids|
  {
    Filter(ids, x => x != id)
  }

  /** `ids.includes(id) ? ids.filter(x => x !== id) : [...ids, id]`. */
  function ToggleId(ids: seq<int>, id: int): seq<int> {
    if id in ids then RemoveId(ids, id) else ids + [id]
  }

  /** Toggling flips the membership of `id` and leaves every other id as it was. */
  lemma ToggleFlipsMembership(ids: seq<int>, id: int)
    ensures id in ToggleId(ids, id) <==> id !in ids
    ensures forall x :: x != id ==> (x in ToggleId(ids, id) <==> x in ids)
  {
  }

  /** Removing an id that is not there changes nothing. */
  lemma {:induction false} RemoveAbsent(ids: seq<int>, id: int)
    requires id !in ids
    ensures RemoveId(ids, id) == ids
    decreases |ids|
  {
    if |ids| > 0 {
      RemoveAbsent(ids[..|ids| - 1], id);
      assert ids[..|ids| - 1] + [ids[|ids| - 1]] == ids;
    }
  }

  /** Selecting a fresh id and toggling it again restores the list. */
  lemma ToggleTwiceRestores(ids: seq<int>, id: int)
    requires id !in ids
    ensures ToggleId(ToggleId(ids, id), id) == ids
  {
    assert ids + [id] == ToggleId(ids, id);
    assert (ids + [id])[..|ids|] == ids;
    RemoveAbsent(ids, id);
  }
}
