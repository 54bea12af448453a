/** The product dialog shared by the menu and the inventory screens: the
    form it opens with, its edits, the addon-group checkboxes and the record
    its submit hands to `onSave`. */
module ProductForm {
  import opened Types
  import Catalog

  /** A number field of the form. `Blank` is an absent or emptied field,
      `Typed` a number entered as text (always truthy, "0" included) and
      `Stored` the number the edited product carried (falsy when 0). */
  datatype NumField = Blank | Typed(v: real) | Stored(s: real)

  datatype Form = Form(
    name: string,
    unit: string,
    cost: NumField,
    price: NumField,
    wholesalePrice: NumField,
    stock: NumField,
    lowStockThreshold: NumField,
    barcode: Option<string>,
    categoryId: Option<int>,
    addonGroupIds: seq<int>
  )

  function StoredOpt(x: Option<real>): NumField {
    if x.Some? then Stored(x.value) else Blank
  }

  /** On opening: the edited product's fields, else an empty form. */
  function OpenForm(editing: Option<Product>): Form {
    if editing.Some? then
      var p := editing.value;
      Form(p.name, p.unit, Stored(p.cost), Stored(p.price), StoredOpt(p.wholesalePrice), Stored(p.stock),
           StoredOpt(p.lowStockThreshold), p.barcode, Some(p.categoryId), p.addonGroupIds)
    else Form("", "", Blank, Blank, Blank, Blank, Blank, None, None, [])
  }

  /** One input event; a number field's `None` is the emptied field. */
  datatype Edit =
    | EditName(name: string) | EditUnit(unit: string)
    | EditCost(n: Option<real>) | EditPrice(n: Option<real>) | EditWholesalePrice(n: Option<real>)
    | EditStock(n: Option<real>) | EditLowStockThreshold(n: Option<real>)
    | EditBarcode(barcode: string) | EditCategory(categoryId: int)

  function Entered(n: Option<real>): NumField {
    if n.Some? then Typed(n.value) else Blank
  }

  /** handleChange: the named field takes the entered value. */
  function ApplyEdit(form: Form, e: Edit): Form {
    match e
    case EditName(s) => form.(name := s)
    case EditUnit(s) => form.(unit := s)
    case EditCost(n) => form.(cost := Entered(n))
    case EditPrice(n) => form.(price := Entered(n))
    case EditWholesalePrice(n) => form.(wholesalePrice := Entered(n))
    case EditStock(n) => form.(stock := Entered(n))
    case EditLowStockThreshold(n) => form.(lowStockThreshold := Entered(n))
    case EditBarcode(s) => form.(barcode := Some(s))
    case EditCategory(c) => form.(categoryId := Some(c))
  }

  /** handleAddonGroupChange. */
  function ToggleGroup(form: Form, id: int): Form {
    form.(addonGroupIds := Catalog.ToggleId(form.addonGroupIds, id))
  }

  /** `Number(field || 0)`. */
  function NumberOrZero(f: NumField): real {
    match f
    case Blank => 0.0
    case Typed(v) => v
    case Stored(s) => s
  }

  /** `field ? Number(field) : undefined`. */
  function Optional(f: NumField): Option<real> {
    match f
    case Blank => None
    case Typed(v) => Some(v)
    case Stored(s) => if s == 0.0 then None else Some(s)
  }

  /** What handleSubmit hands to `onSave`: the form's fields with the
      numbers normalised, the raw-material flag from the edited product or
      the screen's default, and the edited product's id when there is one.
      `categoryId` is `None` when no category was chosen (`Number(undefined)`,
      which the form's required select prevents). */
  datatype Draft = Draft(
    id: Option<int>,
    name: string,
    price: real,
    wholesalePrice: Option<real>,
    cost: real,
    stock: real,
    categoryId: Option<int>,
    isRawMaterial: bool,
    unit: string,
    barcode: Option<string>,
    lowStockThreshold: Option<real>,
    addonGroupIds: seq<int>
  )

  function Submit(form: Form, editing: Option<Product>, defaultIsRawMaterial: bool): Draft {
    Draft(
      if editing.Some? then Some(editing.value.id) else None,
      form.name,
      NumberOrZero(form.price),
      Optional(form.wholesalePrice),
      NumberOrZero(form.cost),
      NumberOrZero(form.stock),
      form.categoryId,
      if editing.Some? then editing.value.isRawMaterial else defaultIsRawMaterial,
      form.unit,
      form.barcode,
      Optional(form.lowStockThreshold),
      form.addonGroupIds)
  }

  /** `'id' in data ? updateProduct(data) : addProduct(data)`. */
  predicate IsUpdate(d: Draft) {
    d.id.Some?
  }

  /** A number field that was emptied saves 0 for price, cost and stock and
      no value for the wholesale price and the threshold; an entered number
      is saved as entered. */
  lemma NumberFieldRules(n: Option<real>)
    ensures NumberOrZero(Entered(n)) == (if n.Some? then n.value else 0.0)
    ensures Optional(Entered(n)) == n
  {
  }

  /** No edit of the form changes whether the product is a raw material, or
      whether the save adds or updates. */
  lemma RawMaterialFlagIsFixed(form: Form, edits: seq<Edit>, editing: Option<Product>, d: bool)
    ensures Submit(Edits(form, edits), editing, d).isRawMaterial == (if editing.Some? then editing.value.isRawMaterial else d)
    ensures IsUpdate(Submit(Edits(form, edits), editing, d)) <==> editing.Some?
    ensures editing.Some? ==> Submit(Edits(form, edits), editing, d).id == Some(editing.value.id)
  {
  }

  function Edits(form: Form, edits: seq<Edit>): Form
    decreases |edits|
  {
    if |edits| == 0 then form else Edits(ApplyEdit(form, edits[0]), edits[1..])
  }

  /** Saving an edit dialog untouched writes back the product it was opened
      on, except that a wholesale price or threshold of 0 is dropped. */
  lemma UntouchedEditRoundTrip(p: Product, d: bool)
    ensures Submit(OpenForm(Some(p)), Some(p), d) == Draft(
      Some(p.id), p.name, p.price,
      if p.wholesalePrice == Some(0.0) then None else p.wholesalePrice,
      p.cost, p.stock, Some(p.categoryId), p.isRawMaterial, p.unit, p.barcode,
      if p.lowStockThreshold == Some(0.0) then None else p.lowStockThreshold,
      p.addonGroupIds)
  {
  }

  /** Retyping 0 in the wholesale price keeps it, where the untouched stored
      0 is dropped: the saved value depends on how the 0 got there. */
  lemma TypedZeroIsKept(p: Product, d: bool)
    requires p.wholesalePrice == Some(0.0)
    ensures Submit(OpenForm(Some(p)), Some(p), d).wholesalePrice == None
    ensures Submit(ApplyEdit(OpenForm(Some(p)), EditWholesalePrice(Some(0.0))), Some(p), d).wholesalePrice == Some(0.0)
  {
  }

  /** Ticking a group's box flips its membership and leaves the other
      groups and every other field alone. */
  lemma ToggleGroupFlips(form: Form, id: int)
    ensures var f := ToggleGroup(form, id);
      && f == form.(addonGroupIds := f.addonGroupIds)
      && (id in f.addonGroupIds <==> id !in form.addonGroupIds)
      && (forall x :: x != id ==> (x in f.addonGroupIds <==> x in form.addonGroupIds))
  {
    Catalog.ToggleFlipsMembership(form.addonGroupIds, id);
  }
}
