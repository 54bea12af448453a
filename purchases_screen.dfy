/** The purchase invoice form: its rows, the running total, the submit check
    and the invoice it hands to `addPurchaseInvoice`. */
module PurchasesScreen {
  import opened Types
  import opened Sums
  import opened Seqs

  datatype PurchaseForm = PurchaseForm(supplierId: Option<int>, date: int, items: seq<PurchaseItem>)

  /** On opening: the first supplier (if any), today's date, no rows. */
  function OpenPurchaseForm(suppliers: seq<Supplier>, today: int): PurchaseForm {
    PurchaseForm(if |suppliers| > 0 then Some(suppliers[0].id) else None, today, [])
  }

  function ItemValue(item: PurchaseItem): real {
    item.cost * item.quantity
  }

  /** The total the form shows: cost times quantity over every row. */
  function FormTotal(items: seq<PurchaseItem>): real {
    Sum(items, ItemValue)
  }

  /** handleAddItem: a row on the first product, 1 unit at cost 0. */
  function AddItemRow(items: seq<PurchaseItem>, products: seq<Product>): seq<PurchaseItem> {
    if |products| > 0 then items + [PurchaseItem(products[0].id, 1.0, 0.0)] else items
  }

  function RemoveItemRow(items: seq<PurchaseItem>, index: int): seq<PurchaseItem> {
    if 0 <= index < |items| then items[..index] + items[index + 1..] else items
  }

  /** A fresh row adds nothing to the total, and removing it restores the rows. */
  lemma NewItemRowIsFree(items: seq<PurchaseItem>, products: seq<Product>)
    ensures FormTotal(AddItemRow(items, products)) == FormTotal(items)
    ensures RemoveItemRow(AddItemRow(items, products), |items|) == items
  {
    if |products| > 0 {
      SumSnoc(items, PurchaseItem(products[0].id, 1.0, 0.0), ItemValue);
      assert (items + [PurchaseItem(products[0].id, 1.0, 0.0)])[..|items|] == items;
    }
  }

  /** A change picked in a row; `None` is a NaN number, which becomes 0. */
  datatype ItemChange = SetProduct(productId: int) | SetQuantity(quantity: Option<real>) | SetCost(cost: Option<real>)

  function ChangedItem(item: PurchaseItem, change: ItemChange): PurchaseItem {
    match change
    case SetProduct(id) => item.(productId := id)
    case SetQuantity(q) => item.(quantity := q.GetOr(0.0))
    case SetCost(c) => item.(cost := c.GetOr(0.0))
  }

  /** handleItemChange: the one field of the row at `index` is written in
      place; every other row and field stays as it was. */
  method ChangeItem(items: array<PurchaseItem>, index: int, change: ItemChange)
    requires 0 <= index < items.Length
    modifies items
    ensures items[..] == old(items[..])[index := ChangedItem(old(items[index]), change)]
  {
    var item := items[index];
    match change
    case SetProduct(id) => items[index] := item.(productId := id);
    case SetQuantity(q) => items[index] := item.(quantity := q.GetOr(0.0));
    case SetCost(c) => items[index] := item.(cost := c.GetOr(0.0));
  }

  /** What the total changes by when one row is changed. */
  lemma {:induction false} TotalAfterChange(items: seq<PurchaseItem>, index: int, change: ItemChange)
    requires 0 <= index < |items|
    ensures FormTotal(items[index := ChangedItem(items[index], change)])
      == FormTotal(items) - ItemValue(items[index]) + ItemValue(ChangedItem(items[index], change))
    decreases |items|
  {
    var n := |items| - 1;
    var changed := items[index := ChangedItem(items[index], change)];
    assert changed[..n] == if index == n then items[..n] else items[..n][index := ChangedItem(items[index], change)];
    if index < n {
      TotalAfterChange(items[..n], index, change);
    }
  }

  /** Rows kept on submit: a positive quantity and a cost of at least 0. */
  predicate Kept(item: PurchaseItem) {
    item.quantity > 0.0 && item.cost >= 0.0
  }

  /** The invoice handed to `addPurchaseInvoice` (the store assigns the id). */
  datatype PurchaseDraft = PurchaseDraft(supplierId: int, date: int, items: seq<PurchaseItem>, totalAmount: real)

  datatype PurchaseSubmit = NoSupplierOrItems | NothingToSave | SaveInvoice(draft: PurchaseDraft)

  /** handleSubmit as written: the kept rows are saved with the total shown,
      which is taken over every row, dropped ones included. */
  function SubmitPurchaseAsWritten(form: PurchaseForm): PurchaseSubmit {
    if form.supplierId.None? || |form.items| == 0 then NoSupplierOrItems
    else
      var kept := Filter(form.items, Kept);
      if |kept| == 0 then NothingToSave
      else SaveInvoice(PurchaseDraft(form.supplierId.value, form.date, kept, FormTotal(form.items)))
  }

  /** handleSubmit with the total taken over the rows it saves. */
  function SubmitPurchase(form: PurchaseForm): PurchaseSubmit {
    if form.supplierId.None? || |form.items| == 0 then NoSupplierOrItems
    else
      var kept := Filter(form.items, Kept);
      if |kept| == 0 then NothingToSave
      else SaveInvoice(PurchaseDraft(form.supplierId.value, form.date, kept, FormTotal(kept)))
  }

  /** The submit rules: no supplier or no rows is refused; a form whose rows
      are all dropped is refused; the saved rows are exactly the kept ones,
      and the invoice total is their value, so the supplier is charged for
      exactly the stock it delivers. The two versions differ only in the
      total, and agree when every row is kept. */
  lemma SubmitRules(form: PurchaseForm)
    ensures var r := SubmitPurchase(form);
      && (r == NoSupplierOrItems <==> form.supplierId.None? || |form.items| == 0)
      && (r == NothingToSave <==>
            r != NoSupplierOrItems && forall i :: 0 <= i < |form.items| ==> !Kept(form.items[i]))
      && (r.SaveInvoice? ==>
            && r.draft.supplierId == form.supplierId.value && r.draft.date == form.date
            && r.draft.items == Filter(form.items, Kept)
            && (forall it :: it in r.draft.items <==> it in form.items && Kept(it))
            && r.draft.totalAmount == FormTotal(r.draft.items)
            && SubmitPurchaseAsWritten(form) == SaveInvoice(r.draft.(totalAmount := FormTotal(form.items))))
      && (r.SaveInvoice? && (forall i :: 0 <= i < |form.items| ==> Kept(form.items[i])) ==>
            SubmitPurchaseAsWritten(form) == r)
      && (!r.SaveInvoice? ==> SubmitPurchaseAsWritten(form) == r)
  {
    if !(form.supplierId.None? || |form.items| == 0) {
      var kept := Filter(form.items, Kept);
      if |kept| == 0 {
        forall i | 0 <= i < |form.items| ensures !Kept(form.items[i]) {
          assert form.items[i] in form.items;
        }
      } else {
        assert kept[0] in form.items;
        if forall i :: 0 <= i < |form.items| ==> Kept(form.items[i]) {
          FilterKeepsAll(form.items, Kept);
        }
      }
    }
  }

  /** The row inputs carry `min="0"`, so a form the browser lets through has
      no negative quantity or cost. Such a form drops only rows of quantity
      0, which are worth nothing, and so both versions save the same invoice. */
  lemma ValidatedFormsAgree(form: PurchaseForm)
    requires forall i :: 0 <= i < |form.items| ==> form.items[i].quantity >= 0.0 && form.items[i].cost >= 0.0
    ensures SubmitPurchaseAsWritten(form) == SubmitPurchase(form)
  {
    DroppedRowsAreWorthless(form.items);
  }

  lemma {:induction false} DroppedRowsAreWorthless(items: seq<PurchaseItem>)
    requires forall i :: 0 <= i < |items| ==> items[i].quantity >= 0.0 && items[i].cost >= 0.0
    ensures FormTotal(Filter(items, Kept)) == FormTotal(items)
    decreases |items|
  {
    if |items| > 0 {
      var init := items[..|items| - 1];
      var last := items[|items| - 1];
      assert init + [last] == items;
      DroppedRowsAreWorthless(init);
      DroppedRowStep(init, last);
    }
  }

  lemma DroppedRowStep(init: seq<PurchaseItem>, last: PurchaseItem)
    requires FormTotal(Filter(init, Kept)) == FormTotal(init)
    requires last.quantity >= 0.0 && last.cost >= 0.0
    ensures FormTotal(Filter(init + [last], Kept)) == FormTotal(init + [last])
  {
    var kept := Filter(init, Kept);
    FilterSnoc(init, last, Kept);
    SumSnoc(init, last, ItemValue);
    if Kept(last) {
      assert Filter(init + [last], Kept) == kept + [last];
      SumSnoc(kept, last, ItemValue);
    } else {
      assert Filter(init + [last], Kept) == kept;
      ZeroQuantityIsWorthless(last);
    }
  }

  lemma ZeroQuantityIsWorthless(item: PurchaseItem)
    requires item.quantity >= 0.0 && item.cost >= 0.0 && !Kept(item)
    ensures ItemValue(item) == 0.0
  {
    assert item.quantity == 0.0;
  }

  /** As written, a dropped row still counts in the invoice total: 2 units at
      10 next to a row of -1 unit at 10 saves only the first row, worth 20,
      under a total of 10. */
  lemma AsWrittenTotalCountsDroppedRows()
    ensures var form := PurchaseForm(Some(4), 0, [PurchaseItem(1, 2.0, 10.0), PurchaseItem(1, -1.0, 10.0)]);
      && SubmitPurchaseAsWritten(form) == SaveInvoice(PurchaseDraft(4, 0, [PurchaseItem(1, 2.0, 10.0)], 10.0))
      && SubmitPurchase(form) == SaveInvoice(PurchaseDraft(4, 0, [PurchaseItem(1, 2.0, 10.0)], 20.0))
  {
    var a := PurchaseItem(1, 2.0, 10.0);
    var b := PurchaseItem(1, -1.0, 10.0);
    assert [a, b][..1] == [a];
    assert Filter([a], Kept) == [a] by {
      assert [a][..0] == [];
    }
    assert Filter([a, b], Kept) == [a];
    assert FormTotal([a]) == 20.0 by {
      SumSnoc([], a, ItemValue);
      assert [] + [a] == [a];
    }
    assert FormTotal([a, b]) == 10.0 by {
      SumSnoc([a], b, ItemValue);
      assert [a] + [b] == [a, b];
    }
  }
}
