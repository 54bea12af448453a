/** The menu management screen: the products tab's list and the addon and
    addon-group dialogs, with what each dialog hands to the store. */
module MenuScreen {
  import opened Types
  import opened Text
  import opened Seqs
  import Catalog

  /** The addon dialog; `price` is `None` while the number field is empty. */
  datatype AddonForm = AddonForm(name: string, price: Option<real>)

  /** On opening: the edited addon's name and price, else an empty form. */
  function OpenAddonForm(editing: Option<Addon>): AddonForm {
    if editing.Some? then AddonForm(editing.value.name, Some(editing.value.price)) else AddonForm("", None)
  }

  datatype AddonSave = AddonRefused | AddAddon(name: string, price: real) | UpdateAddon(addon: Addon)

  function SubmitAddon(form: AddonForm, editing: Option<Addon>): AddonSave {
    if IsBlank(form.name) || form.price.None? then AddonRefused
    else if editing.Some? then UpdateAddon(editing.value.(name := form.name, price := form.price.value))
    else AddAddon(form.name, form.price.value)
  }

  /** A save needs a non-blank name and a price; an edit keeps the addon's
      id and takes the entered name and price; and saving an edit dialog
      untouched writes back the addon it was opened on. */
  lemma AddonSubmitRules(form: AddonForm, editing: Option<Addon>)
    ensures SubmitAddon(form, editing) == AddonRefused <==> IsBlank(form.name) || form.price.None?
    ensures SubmitAddon(form, editing).UpdateAddon? <==> SubmitAddon(form, editing) != AddonRefused && editing.Some?
    ensures var r := SubmitAddon(form, editing);
      r.UpdateAddon? ==> r.addon == Addon(editing.value.id, form.name, form.price.value)
    ensures var r := SubmitAddon(form, editing);
      r.AddAddon? ==> r.name == form.name && r.price == form.price.value
    ensures editing.Some? && !IsBlank(editing.value.name) ==>
      SubmitAddon(OpenAddonForm(editing), editing) == UpdateAddon(editing.value)
  {
  }

  datatype GroupForm = GroupForm(name: string, selectionType: SelectionType, addonIds: seq<int>)

  /** On opening: the edited group's fields, else an empty group allowing
      several choices. */
  function OpenGroupForm(editing: Option<AddonGroup>): GroupForm {
    if editing.Some? then GroupForm(editing.value.name, editing.value.selectionType, editing.value.addonIds)
    else GroupForm("", Multiple, [])
  }

  /** handleToggleAddon. */
  function ToggleGroupAddon(form: GroupForm, id: int): GroupForm {
    form.(addonIds := Catalog.ToggleId(form.addonIds, id))
  }

  /** Ticking an addon's box flips whether it belongs to the group and
      leaves every other addon, the name and the selection type alone;
      ticking a box twice restores an unticked group. */
  lemma ToggleGroupAddonFlips(form: GroupForm, id: int)
    ensures var f := ToggleGroupAddon(form, id);
      && f.name == form.name && f.selectionType == form.selectionType
      && (id in f.addonIds <==> id !in form.addonIds)
      && (forall x :: x != id ==> (x in f.addonIds <==> x in form.addonIds))
    ensures id !in form.addonIds ==> ToggleGroupAddon(ToggleGroupAddon(form, id), id) == form
  {
    Catalog.ToggleFlipsMembership(form.addonIds, id);
    if id !in form.addonIds {
      Catalog.ToggleTwiceRestores(form.addonIds, id);
    }
  }

  datatype GroupSave = GroupRefused | AddGroup(name: string, selectionType: SelectionType, addonIds: seq<int>)
                     | UpdateGroup(group: AddonGroup)

  function SubmitGroup(form: GroupForm, editing: Option<AddonGroup>): GroupSave {
    if IsBlank(form.name) then GroupRefused
    else if editing.Some? then UpdateGroup(AddonGroup(editing.value.id, form.name, form.selectionType, form.addonIds))
    else AddGroup(form.name, form.selectionType, form.addonIds)
  }

  /** A save needs a non-blank name and nothing else (an empty group is
      allowed); an edit keeps the group's id; saving an edit dialog
      untouched writes back the group it was opened on. */
  lemma GroupSubmitRules(form: GroupForm, editing: Option<AddonGroup>)
    ensures SubmitGroup(form, editing) == GroupRefused <==> IsBlank(form.name)
    ensures var r := SubmitGroup(form, editing);
      r.UpdateGroup? <==> !IsBlank(form.name) && editing.Some?
    ensures var r := SubmitGroup(form, editing);
      r.UpdateGroup? ==> r.group == AddonGroup(editing.value.id, form.name, form.selectionType, form.addonIds)
    ensures editing.Some? && !IsBlank(editing.value.name) ==>
      SubmitGroup(OpenGroupForm(editing), editing) == UpdateGroup(editing.value)
  {
  }

  /** The products tab lists sellable products whose name contains the term
      ignoring case, or whose barcode contains it as typed. */
  predicate Listed(p: Product, term: string) {
    && !p.isRawMaterial
    && (ContainsIgnoringCase(p.name, term) || (p.barcode.Some? && p.barcode.value != "" && Contains(p.barcode.value, term)))
  }

  function ListedFor(term: string): Product -> bool {
    (p: Product) => Listed(p, term)
  }

  function FilteredProducts(products: seq<Product>, term: string): seq<Product> {
    Filter(products, ListedFor(term))
  }

  /** The list never shows a raw material; an empty term lists every
      sellable product; a sellable product is listed exactly when its name
      or its barcode matches. */
  lemma FilteredProductsExact(products: seq<Product>, term: string, p: Product)
    ensures p in FilteredProducts(products, term) ==> p in products && !p.isRawMaterial
    ensures term == "" ==> (p in FilteredProducts(products, term) <==> p in products && !p.isRawMaterial)
    ensures p in products && !p.isRawMaterial ==>
      (p in FilteredProducts(products, term) <==>
         ContainsIgnoringCase(p.name, term) || (p.barcode.Some? && p.barcode.value != "" && Contains(p.barcode.value, term)))
  {
    if term == "" {
      ContainsEmpty(ToLower(p.name));
    }
  }

  /** The barcode match is case-sensitive where the name match is not: a
      product named "tea" with barcode "AB12" is found by "TEA" and by "AB",
      but not by "ab". */
  lemma BarcodeMatchIsCaseSensitive()
    ensures var p := Product(1, "tea", 5.0, None, 2.0, 10.0, 1, false, "cup", Some("AB12"), None, []);
      && Listed(p, "TEA") && Listed(p, "AB") && !Listed(p, "ab")
  {
    var p := Product(1, "tea", 5.0, None, 2.0, 10.0, 1, false, "cup", Some("AB12"), None, []);
    assert ToLower("TEA") == "tea";
    assert ToLower("tea") == "tea";
    assert IsPrefix("tea", "tea");
    assert IsPrefix("AB", "AB12");
    assert ToLower("ab") == "ab";
    assert !Contains("tea", "ab") by {
      assert !IsPrefix("ab", "tea");
      assert "tea"[1..] == "ea";
      assert !IsPrefix("ab", "ea");
      assert "ea"[1..] == "a";
      assert !IsPrefix("ab", "a");
      assert "a"[1..] == "";
      assert !IsPrefix("ab", "");
    }
    assert !Contains("AB12", "ab") by {
      assert !IsPrefix("ab", "AB12");
      assert "AB12"[1..] == "B12";
      assert !IsPrefix("ab", "B12");
      assert "B12"[1..] == "12";
      assert !IsPrefix("ab", "12");
      assert "12"[1..] == "2";
      assert !IsPrefix("ab", "2");
      assert "2"[1..] == "";
      assert !IsPrefix("ab", "");
    }
  }
}
