/** The recipes screen: the recipe form (loading, editing the ingredient
    rows, the submit check and the save), and the cost and profit a recipe
    card shows. */
module RecipesScreen {
  import opened Types
  import opened Sums
  import opened Text
  import opened Seqs
  import opened Catalog

  /** The form's fields; `None` is an empty price or category. */
  datatype RecipeForm = RecipeForm(
    name: string,
    price: Option<real>,
    categoryId: Option<int>,
    ingredients: seq<Ingredient>,
    addonGroupIds: seq<int>
  )

  /** A recipe as the form submits it, without an id. */
  datatype RecipeData = RecipeData(name: string, price: real, categoryId: int,
                                   ingredients: seq<Ingredient>, addonGroupIds: seq<int>)

  datatype RecipeSave = MissingFields | NoQuantities | AddRecipe(data: RecipeData) | UpdateRecipe(id: int, data: RecipeData)

  /** The name prefix of a cloned recipe ("copy of "). */
  const ClonePrefix: string := "نسخة من "

  predicate HoldsRawMaterial(products: seq<Product>, categoryId: int) {
    exists p :: p in products && p.isRawMaterial && p.categoryId == categoryId
  }

  /** The categories offered: those holding no raw material. */
  function RecipeCategories(categoryIds: seq<int>, products: seq<Product>): seq<int> {
    Filter(categoryIds, (c: int) => !HoldsRawMaterial(products, c))
  }

  /** What the form shows on opening: the edited recipe's fields (with the
      prefix for a clone), or a blank form on the first offered category. */
  function OpenForm(editing: Option<Recipe>, isClone: bool, recipeCategories: seq<int>): RecipeForm {
    if editing.Some? then
      var r := editing.value;
      RecipeForm(if isClone then ClonePrefix + r.name else r.name, Some(r.price), Some(r.categoryId),
                 r.ingredients, r.addonGroupIds)
    else
      RecipeForm("", None, if |recipeCategories| > 0 then Some(recipeCategories[0]) else None, [], [])
  }

  predicate HasQuantity(ing: Ingredient) {
    ing.quantity > 0.0
  }

  /** handleSubmit followed by handleSaveRecipe: an edit (not a clone) is
      saved under its id, anything else is added as a new recipe. */
  function SubmitRecipe(form: RecipeForm, editing: Option<Recipe>, isClone: bool): RecipeSave {
    if IsBlank(form.name) || form.price.None? || form.categoryId.None? || |form.ingredients| == 0 then MissingFields
    else
      var kept := Filter(form.ingredients, HasQuantity);
      if |kept| == 0 then NoQuantities
      else
        var data := RecipeData(form.name, form.price.value, form.categoryId.value, kept, form.addonGroupIds);
        if editing.Some? && !isClone then UpdateRecipe(editing.value.id, data) else AddRecipe(data)
  }

  /** The submit rules: a blank name, no price, no category or no rows is
      refused; otherwise rows without a positive quantity are dropped and a
      form with none left is refused; what is saved keeps exactly the rows
      with a positive quantity, in order, and the entered fields. */
  lemma SubmitRules(form: RecipeForm, editing: Option<Recipe>, isClone: bool)
    ensures var r := SubmitRecipe(form, editing, isClone);
      && (r == MissingFields <==>
            IsBlank(form.name) || form.price.None? || form.categoryId.None? || |form.ingredients| == 0)
      && (r == NoQuantities <==>
            r != MissingFields && forall i :: 0 <= i < |form.ingredients| ==> form.ingredients[i].quantity <= 0.0)
      && (r.AddRecipe? || r.UpdateRecipe? ==>
            && r.data.ingredients == Filter(form.ingredients, HasQuantity)
            && (forall ing :: ing in r.data.ingredients <==> ing in form.ingredients && ing.quantity > 0.0)
            && r.data.name == form.name && r.data.addonGroupIds == form.addonGroupIds
            && Some(r.data.price) == form.price && Some(r.data.categoryId) == form.categoryId)
      && (r.UpdateRecipe? <==> (r != MissingFields && r != NoQuantities && editing.Some? && !isClone))
      && (r.UpdateRecipe? ==> r.id == editing.value.id)
  {
    var r := SubmitRecipe(form, editing, isClone);
    if !(IsBlank(form.name) || form.price.None? || form.categoryId.None? || |form.ingredients| == 0) {
      var kept := Filter(form.ingredients, HasQuantity);
      if |kept| == 0 {
        forall i | 0 <= i < |form.ingredients| ensures form.ingredients[i].quantity <= 0.0 {
          assert form.ingredients[i] in form.ingredients;
        }
      } else {
        assert kept[0] in form.ingredients;
      }
    }
  }

  /** Editing a recipe and saving it untouched updates it under its own id
      with its own fields, when its name is filled in and every ingredient
      has a positive quantity. */
  lemma UntouchedEditSavesSameRecipe(r: Recipe, recipeCategories: seq<int>)
    requires !IsBlank(r.name) && |r.ingredients| > 0
    requires forall i :: 0 <= i < |r.ingredients| ==> r.ingredients[i].quantity > 0.0
    ensures SubmitRecipe(OpenForm(Some(r), false, recipeCategories), Some(r), false)
      == UpdateRecipe(r.id, RecipeData(r.name, r.price, r.categoryId, r.ingredients, r.addonGroupIds))
  {
    FilterKeepsAll(r.ingredients, HasQuantity);
  }

  /** Cloning a recipe and saving it untouched adds a new recipe under the
      prefixed name, with the same price, category, rows and addon groups. */
  lemma UntouchedCloneAddsCopy(r: Recipe, recipeCategories: seq<int>)
    requires |r.ingredients| > 0
    requires forall i :: 0 <= i < |r.ingredients| ==> r.ingredients[i].quantity > 0.0
    ensures SubmitRecipe(OpenForm(Some(r), true, recipeCategories), Some(r), true)
      == AddRecipe(RecipeData(ClonePrefix + r.name, r.price, r.categoryId, r.ingredients, r.addonGroupIds))
  {
    FilterKeepsAll(r.ingredients, HasQuantity);
    assert (ClonePrefix + r.name)[0] == 'ن';
  }

  /** handleAddIngredient: a row on the first raw material with quantity 0,
      only when raw materials exist. */
  function AddIngredientRow(ings: seq<Ingredient>, rawMaterials: seq<Product>): seq<Ingredient> {
    if |rawMaterials| > 0 then ings + [Ingredient(rawMaterials[0].id, 0.0)] else ings
  }

  /** handleRemoveIngredient: every row but the one at `index`. */
  function RemoveIngredient(ings: seq<Ingredient>, index: int): seq<Ingredient> {
    if 0 <= index < |ings| then ings[..index] + ings[index + 1..] else ings
  }

  /** A fresh row is dropped on submit until it is given a quantity, and
      removing it again restores the rows. */
  lemma NewRowIsInert(ings: seq<Ingredient>, rawMaterials: seq<Product>)
    ensures Filter(AddIngredientRow(ings, rawMaterials), HasQuantity) == Filter(ings, HasQuantity)
    ensures RemoveIngredient(AddIngredientRow(ings, rawMaterials), |ings|) == ings
    ensures |rawMaterials| > 0 <==> |AddIngredientRow(ings, rawMaterials)| == |ings| + 1
  {
    if |rawMaterials| > 0 {
      FilterSnoc(ings, Ingredient(rawMaterials[0].id, 0.0), HasQuantity);
      assert (ings + [Ingredient(rawMaterials[0].id, 0.0)])[..|ings|] == ings;
    }
  }

  /** The profit a recipe card shows. */
  function RecipeProfit(recipe: Recipe, products: map<int, Product>): real {
    recipe.price - RecipeCost(recipe, products)
  }

  /** The card's profit is the price less cost times quantity over the
      ingredients whose product still exists. */
  lemma CardProfit(recipe: Recipe, products: map<int, Product>)
    ensures RecipeProfit(recipe, products)
      == recipe.price - Sum(KnownIngredients(recipe.ingredients, products), IngredientCostIn(products))
  {
    RecipeCostSkipsMissing(recipe.ingredients, products);
  }

  // ---------------------------------------------------------------------
  // Editing the rows in place (handleIngredientChange)

  /** One ingredient row object. The form copies the list of rows but not
      the rows, so a row being edited may be the very object the stored
      recipe holds. */
  class IngredientRow {
    var productId: int
    var quantity: real

    constructor (productId: int, quantity: real)
      ensures this.productId == productId && this.quantity == quantity
    {
      this.productId := productId;
      this.quantity := quantity;
    }
  }

  /** A change picked in a row: the product select, or the quantity field
      (`None` for NaN, which becomes 0). */
  datatype IngredientChange = SetProduct(productId: int) | SetQuantity(parsed: Option<real>)

  function Changed(ing: Ingredient, change: IngredientChange): Ingredient {
    match change
    case SetProduct(id) => ing.(productId := id)
    case SetQuantity(parsed) => ing.(quantity := parsed.GetOr(0.0))
  }

  function RowValue(row: IngredientRow): Ingredient
    reads row
  {
    Ingredient(row.productId, row.quantity)
  }

  /** The ingredient values the rows currently hold. */
  function Snapshot(rows: seq<IngredientRow>): (r: seq<Ingredient>)
    reads rows
    ensures |r| == |rows|
    ensures forall i :: 0 <= i < |rows| ==> r[i] == RowValue(rows[i])
  {
    if |rows| == 0 then [] else Snapshot(rows[..|rows| - 1]) + [RowValue(rows[|rows| - 1])]
  }

  /** The field write of handleIngredientChange on the row at `index`. */
  method ChangeIngredient(rows: seq<IngredientRow>, index: int, change: IngredientChange)
    requires 0 <= index < |rows|
    modifies rows[index]
    ensures RowValue(rows[index]) == Changed(old(RowValue(rows[index])), change)
  {
    var row := rows[index];
    match change
    case SetProduct(id) => row.productId := id;
    case SetQuantity(parsed) => row.quantity := parsed.GetOr(0.0);
  }

  /** As written: the form's rows are the stored recipe's rows, so a change
      typed into the form is already in the stored recipe, whether or not
      the form is then saved. */
  method EditSharedRows(stored: seq<IngredientRow>, index: int, change: IngredientChange)
    returns (form: seq<IngredientRow>)
    requires 0 <= index < |stored|
    requires forall i, j :: 0 <= i < j < |stored| ==> stored[i] != stored[j]
    modifies stored[index]
    ensures form == stored
    ensures Snapshot(stored) == old(Snapshot(stored))[index := Changed(old(RowValue(stored[index])), change)]
  {
    form := stored;   // [...ingredients] copies the list, not the rows
    ChangeIngredient(form, index, change);
  }

  /** The stored recipe holds one row of 2 units; the form changes it to 5 and
      is closed without saving: the stored recipe now asks for 5. */
  method CanceledEditChangesStoredRecipe() returns (before: seq<Ingredient>, after: seq<Ingredient>)
    ensures before == [Ingredient(1, 2.0)] && after == [Ingredient(1, 5.0)]
  {
    var row := new IngredientRow(1, 2.0);
    var stored := [row];
    before := Snapshot(stored);
    var form := EditSharedRows(stored, 0, SetQuantity(Some(5.0)));
    after := Snapshot(stored);
  }

  /** Fresh row objects holding the same values. */
  method CopyRows(rows: seq<IngredientRow>) returns (copy: seq<IngredientRow>)
    ensures |copy| == |rows|
    ensures forall i :: 0 <= i < |copy| ==> fresh(copy[i])
    ensures forall i, j :: 0 <= i < j < |copy| ==> copy[i] != copy[j]
    ensures Snapshot(copy) == Snapshot(rows)
  {
    copy := [];
    var i := 0;
    while i < |rows|
      invariant 0 <= i <= |rows|
      invariant |copy| == i
      invariant forall k :: 0 <= k < i ==> fresh(copy[k])
      invariant forall k, m :: 0 <= k < m < i ==> copy[k] != copy[m]
      invariant forall k :: 0 <= k < i ==> RowValue(copy[k]) == RowValue(rows[k])
    {
      var row := new IngredientRow(rows[i].productId, rows[i].quantity);
      copy := copy + [row];
      i := i + 1;
    }
  }

  /** Editing copies of the rows leaves the stored recipe as it was, and the
      form holds the stored values with the one change. */
  method EditCopiedRows(stored: seq<IngredientRow>, index: int, change: IngredientChange)
    returns (form: seq<IngredientRow>)
    requires 0 <= index < |stored|
    ensures Snapshot(stored) == old(Snapshot(stored))
    ensures Snapshot(form) == Snapshot(stored)[index := Changed(RowValue(stored[index]), change)]
  {
    form := CopyRows(stored);
    ChangeIngredient(form, index, change);
  }

  /** The same edit on copies: the stored recipe still asks for 2, the form
      for 5. */
  method CanceledEditOnCopiesKeepsStoredRecipe() returns (before: seq<Ingredient>, after: seq<Ingredient>, edited: seq<Ingredient>)
    ensures before == [Ingredient(1, 2.0)] && after == before && edited == [Ingredient(1, 5.0)]
  {
    var row := new IngredientRow(1, 2.0);
    var stored := [row];
    before := Snapshot(stored);
    var form := EditCopiedRows(stored, 0, SetQuantity(Some(5.0)));
    after := Snapshot(stored);
    edited := Snapshot(form);
  }
}
