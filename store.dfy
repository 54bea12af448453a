/** The application store: the catalogue, the ledgers, the cart and the
    session, with the operations that change them (the sale and shift
    engine). Every store is an id-keyed map; ids the database would assign
    are parameters that must not be in use yet. */
module Store {
  import opened Types
  import opened Sums
  import opened Pricing
  import opened Catalog
  import opened StockLedger
  import opened Seqs

  // ----- Cart -----

  /** The argument of `addToCart`: a product or a recipe from the catalogue. */
  datatype CatalogEntry = ProductEntry(product: Product) | RecipeEntry(recipe: Recipe)

  /** The price a product line is charged: the wholesale price when the
      cart is in wholesale mode and the product has a non-zero one. */
  function UnitPrice(p: Product, isWholesale: bool): real {
    if isWholesale && p.wholesalePrice.Some? && p.wholesalePrice.value != 0.0 then p.wholesalePrice.value else p.price
  }

  /** The line `addToCart` appends. */
  function NewLine(entry: CatalogEntry, cartItemId: string, isWholesale: bool, products: map<int, Product>): (line: CartItem)
    ensures line.quantity == 1.0 && line.selectedAddons == [] && line.notes == "" && line.cartItemId == cartItemId
    ensures entry.ProductEntry? ==>
      && line.itemType == ProductItem && line.id == entry.product.id
      && line.price == UnitPrice(entry.product, isWholesale)
      && line.cost == entry.product.cost
    ensures entry.RecipeEntry? ==>
      && line.itemType == RecipeItem && line.id == entry.recipe.id
      && line.price == entry.recipe.price
      && line.cost == RecipeCost(entry.recipe, products)
  {
    match entry
    case ProductEntry(p) =>
      CartItem(cartItemId, p.id, p.name, UnitPrice(p, isWholesale), p.cost, 1.0, ProductItem, [], "")
    case RecipeEntry(r) =>
      CartItem(cartItemId, r.id, r.name, r.price, RecipeCost(r, products), 1.0, RecipeItem, [], "")
  }

  /** `Partial<Pick<CartItem, 'quantity' | 'notes' | 'selectedAddons'>>`:
      `None` is a key the update leaves out. */
  datatype CartUpdate = CartUpdate(quantity: Option<real>, notes: Option<string>, selectedAddons: Option<seq<Addon>>)

  function UpdateLine(item: CartItem, u: CartUpdate): CartItem {
    item.(quantity := u.quantity.GetOr(item.quantity),
          notes := u.notes.GetOr(item.notes),
          selectedAddons := u.selectedAddons.GetOr(item.selectedAddons))
  }

  /** An update whose quantity is below 1 removes the line. */
  predicate Drops(u: CartUpdate) {
    u.quantity.Some? && u.quantity.value < 1.0
  }

  function UpdatedCart(cart: seq<CartItem>, cartItemId: string, u: CartUpdate): seq<CartItem> {
    if |cart| == 0 then []
    else
      var rest := UpdatedCart(cart[..|cart| - 1], cartItemId, u);
      var last := cart[|cart| - 1];
      if last.cartItemId != cartItemId then rest + [last]
      else if Drops(u) then rest
      else rest + [UpdateLine(last, u)]
  }

  /** `removeFromCart`: `cart.filter(item => item.cartItemId !== cartItemId)`. */
  function WithoutLine(cart: seq<CartItem>, cartItemId: string): (r: seq<CartItem>)
    ensures forall x :: x in r <==> x in cart && x.cartItemId != cartItemId
  {
    Filter(cart, (x: CartItem) => x.cartItemId != cartItemId)
  }

  /** A dropping update is exactly `removeFromCart`. */
  lemma {:induction false} DroppingUpdateRemovesLine(cart: seq<CartItem>, cartItemId: string, u: CartUpdate)
    requires Drops(u)
    ensures UpdatedCart(cart, cartItemId, u) == WithoutLine(cart, cartItemId)
    decreases |cart|
  {
    if |cart| > 0 {
      DroppingUpdateRemovesLine(cart[..|cart| - 1], cartItemId, u);
    }
  }

  /** Any other update rewrites the matching line in place and leaves
      every other line as it was. */
  lemma {:induction false} UpdateRewritesMatchingLine(cart: seq<CartItem>, cartItemId: string, u: CartUpdate)
    requires !Drops(u)
    ensures |UpdatedCart(cart, cartItemId, u)| == |cart|
    ensures forall i :: 0 <= i < |cart| ==>
      UpdatedCart(cart, cartItemId, u)[i] == (if cart[i].cartItemId == cartItemId then UpdateLine(cart[i], u) else cart[i])
    decreases |cart|
  {
    if |cart| > 0 {
      UpdateRewritesMatchingLine(cart[..|cart| - 1], cartItemId, u);
    }
  }

  /** The wholesale effect: every product line whose product still exists
      is repriced for the current mode; recipe lines keep their price. */
  function Repriced(cart: seq<CartItem>, products: map<int, Product>, isWholesale: bool): (r: seq<CartItem>)
    ensures |r| == |cart|
  {
    if |cart| == 0 then []
    else
      var item := cart[|cart| - 1];
      Repriced(cart[..|cart| - 1], products, isWholesale)
      + [if item.itemType == ProductItem && item.id in products
         then item.(price := UnitPrice(products[item.id], isWholesale))
         else item]
  }

  /** Repricing changes prices only, and only of product lines whose
      product is in the catalogue. */
  lemma {:induction false} RepricingChangesOnlyPrices(cart: seq<CartItem>, products: map<int, Product>, isWholesale: bool)
    ensures forall i :: 0 <= i < |cart| ==>
      Repriced(cart, products, isWholesale)[i]
        == (if cart[i].itemType == ProductItem && cart[i].id in products
            then cart[i].(price := UnitPrice(products[cart[i].id], isWholesale))
            else cart[i])
    decreases |cart|
  {
    if |cart| > 0 {
      RepricingChangesOnlyPrices(cart[..|cart| - 1], products, isWholesale);
    }
  }

  /** Switching the mode off again prices the cart as if it had never
      been switched on; repricing twice is repricing once. */
  lemma {:induction false} RepricingForgetsEarlierMode(cart: seq<CartItem>, products: map<int, Product>, first: bool, second: bool)
    ensures Repriced(Repriced(cart, products, first), products, second) == Repriced(cart, products, second)
    decreases |cart|
  {
    if |cart| > 0 {
      var init := cart[..|cart| - 1];
      assert Repriced(cart, products, first)[..|cart| - 1] == Repriced(init, products, first);
      RepricingForgetsEarlierMode(init, products, first, second);
    }
  }

  // ----- Customer ledger -----

  /** The customer update of `processSale`. */
  function ChargeCustomer(c: Customer, credit: real, loyaltyEnabled: bool, redeemed: int, earned: int): Customer {
    var c1 := if credit > 0.0 then c.(balance := c.balance - credit) else c;
    if loyaltyEnabled then c1.(loyaltyPoints := c1.loyaltyPoints - redeemed + earned) else c1
  }

  /** The customer update of `cancelSale`: points are reverted whatever
      the loyalty setting. */
  function RefundCustomer(c: Customer, credit: real, redeemed: int, earned: int): Customer {
    var c1 := if credit > 0.0 then c.(balance := c.balance + credit) else c;
    c1.(loyaltyPoints := c1.loyaltyPoints + redeemed - earned)
  }

  /** With loyalty on, cancel undoes commit exactly; with loyalty off the
      commit left the points alone, but the cancel still moves them by
      `redeemed - earned`. */
  lemma RefundAfterCharge(c: Customer, credit: real, loyaltyEnabled: bool, redeemed: int, earned: int)
    ensures loyaltyEnabled ==> RefundCustomer(ChargeCustomer(c, credit, loyaltyEnabled, redeemed, earned), credit, redeemed, earned) == c
    ensures !loyaltyEnabled ==> RefundCustomer(ChargeCustomer(c, credit, loyaltyEnabled, redeemed, earned), credit, redeemed, earned)
                                == c.(loyaltyPoints := c.loyaltyPoints + redeemed - earned)
  {
  }

  /** `if (customerId) db.customers.where('id').equals(customerId).modify(...)`. */
  function ChargeLedger(customers: map<int, Customer>, customerId: Option<int>, credit: real, loyaltyEnabled: bool, redeemed: int, earned: int): map<int, Customer> {
    if Attached(customerId) && customerId.value in customers
    then customers[customerId.value := ChargeCustomer(customers[customerId.value], credit, loyaltyEnabled, redeemed, earned)]
    else customers
  }

  function RefundLedger(customers: map<int, Customer>, customerId: Option<int>, credit: real, redeemed: int, earned: int): map<int, Customer> {
    if Attached(customerId) && customerId.value in customers
    then customers[customerId.value := RefundCustomer(customers[customerId.value], credit, redeemed, earned)]
    else customers
  }

  /** Commit then cancel of a sale with loyalty on leaves every customer as before. */
  lemma LedgerRoundTrip(customers: map<int, Customer>, customerId: Option<int>, credit: real, redeemed: int, earned: int)
    ensures RefundLedger(ChargeLedger(customers, customerId, credit, true, redeemed, earned), customerId, credit, redeemed, earned) == customers
  {
    if Attached(customerId) && customerId.value in customers {
      RefundAfterCharge(customers[customerId.value], credit, true, redeemed, earned);
    }
  }

  // ----- Sales -----

  /** The sale record `processSale` appends. */
  function SaleRecord(saleId: int, date: int, cart: seq<CartItem>, shop: ShopInfo, req: SaleRequest, user: User, shift: Option<Shift>): Sale {
    var p := PriceSale(cart, shop, req);
    Sale(saleId, date, cart, p.subTotal, req.discountType, req.discountValue, p.taxAmount, req.deliveryFee,
         p.totalAmount, p.totalCost, req.customerId, user.id, user.name, req.paymentDetails,
         req.redeemedPoints, p.pointsEarned, Completed,
         if shift.Some? then Some(shift.value.id) else None)
  }

  datatype CancelOutcome = SaleNotFound | AlreadyCanceled | ShiftAlreadyClosed | SaleCanceled

  /** The closed-shift guard of `cancelSale`. */
  predicate InClosedShift(s: Sale, shifts: map<int, Shift>) {
    Attached(s.shiftId) && s.shiftId.value in shifts && shifts[s.shiftId.value].status == Closed
  }

  // ----- Shifts -----

  /** The sales `endShift` reads: completed sales stamped with the shift's id. */
  predicate CountsFor(s: Sale, shiftId: int) {
    s.shiftId == Some(shiftId) && s.status == Completed
  }

  function CashOf(shiftId: int): Sale -> real {
    (s: Sale) => if CountsFor(s, shiftId) then s.paymentDetails.cash else 0.0
  }

  function CardOf(shiftId: int): Sale -> real {
    (s: Sale) => if CountsFor(s, shiftId) then s.paymentDetails.card else 0.0
  }

  function TotalOf(shiftId: int): Sale -> real {
    (s: Sale) => if CountsFor(s, shiftId) then s.totalAmount else 0.0
  }

  function ExpenseOf(shiftId: int): Expense -> real {
    (e: Expense) => if e.shiftId == shiftId then e.amount else 0.0
  }

  ghost function ShiftCash(sales: map<int, Sale>, shiftId: int): real { SumMap(sales, sales.Keys, CashOf(shiftId)) }
  ghost function ShiftCard(sales: map<int, Sale>, shiftId: int): real { SumMap(sales, sales.Keys, CardOf(shiftId)) }
  ghost function ShiftTotal(sales: map<int, Sale>, shiftId: int): real { SumMap(sales, sales.Keys, TotalOf(shiftId)) }
  ghost function ShiftExpenses(expenses: map<int, Expense>, shiftId: int): real { SumMap(expenses, expenses.Keys, ExpenseOf(shiftId)) }

  /** The three `reduce`s of `endShift` over the shift's sales. */
  method SumShiftSales(sales: map<int, Sale>, shiftId: int) returns (cash: real, card: real, total: real)
    ensures cash == ShiftCash(sales, shiftId)
    ensures card == ShiftCard(sales, shiftId)
    ensures total == ShiftTotal(sales, shiftId)
  {
    cash, card, total := 0.0, 0.0, 0.0;
    var pending := sales.Keys;
    while exists k :: k in pending
      invariant pending <= sales.Keys
      invariant cash + SumMap(sales, pending, CashOf(shiftId)) == ShiftCash(sales, shiftId)
      invariant card + SumMap(sales, pending, CardOf(shiftId)) == ShiftCard(sales, shiftId)
      invariant total + SumMap(sales, pending, TotalOf(shiftId)) == ShiftTotal(sales, shiftId)
      decreases |pending|
    {
      var k :| k in pending;
      SumMapPick(sales, pending, CashOf(shiftId), k);
      SumMapPick(sales, pending, CardOf(shiftId), k);
      SumMapPick(sales, pending, TotalOf(shiftId), k);
      var s := sales[k];
      if CountsFor(s, shiftId) {
        cash := cash + s.paymentDetails.cash;
        card := card + s.paymentDetails.card;
        total := total + s.totalAmount;
      }
      pending := pending - {k};
    }
    assert pending == {};
  }

  /** The `reduce` of `endShift` over the shift's expenses. */
  method SumShiftExpenses(expenses: map<int, Expense>, shiftId: int) returns (total: real)
    ensures total == ShiftExpenses(expenses, shiftId)
  {
    total := 0.0;
    var pending := expenses.Keys;
    while exists k :: k in pending
      invariant pending <= expenses.Keys
      invariant total + SumMap(expenses, pending, ExpenseOf(shiftId)) == ShiftExpenses(expenses, shiftId)
      decreases |pending|
    {
      var k :| k in pending;
      SumMapPick(expenses, pending, ExpenseOf(shiftId), k);
      if expenses[k].shiftId == shiftId {
        total := total + expenses[k].amount;
      }
      pending := pending - {k};
    }
    assert pending == {};
  }

  /** A freshly started shift: open, no end time, every aggregate 0. */
  function OpenShift(shiftId: int, user: User, startTime: int, startingCash: real): Shift {
    Shift(shiftId, user.id, user.name, startTime, None, Active, startingCash, 0.0, 0.0, 0.0, 0.0, 0.0, 0.0, 0.0)
  }

  /** The record `endShift` writes back. */
  function CloseShift(s: Shift, endTime: int, endingCash: real, cash: real, card: real, total: real, spent: real): (c: Shift)
    ensures c.status == Closed && c.endTime == Some(endTime) && CashReconciled(c)
    ensures c.id == s.id && c.userId == s.userId && c.startingCash == s.startingCash && c.startTime == s.startTime
    ensures c.cashSales == cash && c.cardSales == card && c.totalSales == total && c.totalExpenses == spent
    ensures c.endingCash == endingCash
  {
    var expected := s.startingCash + cash - spent;
    s.(endTime := Some(endTime), status := Closed, endingCash := endingCash,
       cashSales := cash, cardSales := card, totalSales := total, totalExpenses := spent,
       expectedCash := expected, difference := endingCash - expected)
  }

  /** What a shift record looks like in each state of its life. */
  predicate ShiftWellFormed(s: Shift) {
    match s.status
    case Active =>
      && s.endTime.None?
      && s.endingCash == 0.0 && s.cashSales == 0.0 && s.cardSales == 0.0 && s.totalExpenses == 0.0
      && s.totalSales == 0.0 && s.expectedCash == 0.0 && s.difference == 0.0
    case Closed => s.endTime.Some? && CashReconciled(s)
  }

  // ----- Catalogue guards -----

  /** `sales.some(sale => sale.items.some(item => item.type === 'recipe' && item.id === recipeId))`. */
  predicate RecipeSold(sales: map<int, Sale>, recipeId: int) {
    exists k, i :: k in sales && 0 <= i < |sales[k].items|
      && sales[k].items[i].itemType == RecipeItem && sales[k].items[i].id == recipeId
  }

  predicate UsesProduct(r: Recipe, productId: int) {
    exists i :: 0 <= i < |r.ingredients| && r.ingredients[i].productId == productId
  }

  predicate UsedInRecipe(recipes: map<int, Recipe>, productId: int) {
    exists k :: k in recipes && UsesProduct(recipes[k], productId)
  }

  /** The per-line test of `deleteProduct`'s sale check: a direct line, or
      a recipe line whose current recipe uses the product. */
  predicate LineUsesProduct(item: CartItem, recipes: map<int, Recipe>, productId: int) {
    match item.itemType
    case ProductItem => item.id == productId
    case RecipeItem => item.id in recipes && UsesProduct(recipes[item.id], productId)
  }

  predicate ProductSold(sales: map<int, Sale>, recipes: map<int, Recipe>, productId: int) {
    exists k, i :: k in sales && 0 <= i < |sales[k].items| && LineUsesProduct(sales[k].items[i], recipes, productId)
  }

  predicate SoldDirectly(sales: map<int, Sale>, productId: int) {
    exists k, i :: k in sales && 0 <= i < |sales[k].items|
      && sales[k].items[i].itemType == ProductItem && sales[k].items[i].id == productId
  }

  /** The recipe branch of the sale check can never fire: it consults the
      same current recipes the first guard has already searched, so once
      no recipe uses the product, "sold" means "sold directly". */
  lemma SaleCheckReducesToDirectSales(sales: map<int, Sale>, recipes: map<int, Recipe>, productId: int)
    requires !UsedInRecipe(recipes, productId)
    ensures ProductSold(sales, recipes, productId) <==> SoldDirectly(sales, productId)
  {
    if ProductSold(sales, recipes, productId) {
      var k, i :| k in sales && 0 <= i < |sales[k].items| && LineUsesProduct(sales[k].items[i], recipes, productId);
      var item := sales[k].items[i];
      if item.itemType == RecipeItem {
        assert false;
      }
    }
  }

  datatype DeleteOutcome = Deleted | InUseByRecipe | InUseBySale

  datatype StartOutcome = NoUser | ShiftAlreadyActive | ShiftStarted

  // ----- Purchases -----

  /** Quantity of product `productId` received over the invoice lines. */
  function ReceivedQuantity(items: seq<PurchaseItem>, productId: int): real {
    if |items| == 0 then 0.0
    else ReceivedQuantity(items[..|items| - 1], productId)
         + (if items[|items| - 1].productId == productId then items[|items| - 1].quantity else 0.0)
  }

  /** One `modify(p => p.stock += quantity)` per invoice line, so a product
      listed twice is raised twice; lines for unknown products do nothing. */
  method ReceiveStock(products: map<int, Product>, items: seq<PurchaseItem>) returns (result: map<int, Product>)
    ensures result.Keys == products.Keys
    ensures forall pid :: pid in products ==>
      result[pid] == products[pid].(stock := products[pid].stock + ReceivedQuantity(items, pid))
  {
    result := products;
    var i := 0;
    while i < |items|
      invariant 0 <= i <= |items|
      invariant result.Keys == products.Keys
      invariant forall pid :: pid in products ==>
        result[pid] == products[pid].(stock := products[pid].stock + ReceivedQuantity(items[..i], pid))
    {
      assert items[..i + 1][..i] == items[..i];
      var it := items[i];
      if it.productId in result {
        result := result[it.productId := result[it.productId].(stock := result[it.productId].stock + it.quantity)];
      }
      i := i + 1;
    }
    assert items[..i] == items;
  }

  /** `db.suppliers.where('id').equals(id).modify(s => s.balance += delta)`. */
  function AdjustSupplier(suppliers: map<int, Supplier>, id: int, delta: real): map<int, Supplier> {
    if id in suppliers then suppliers[id := suppliers[id].(balance := suppliers[id].balance + delta)] else suppliers
  }

  function AdjustCustomer(customers: map<int, Customer>, id: int, delta: real): map<int, Customer> {
    if id in customers then customers[id := customers[id].(balance := customers[id].balance + delta)] else customers
  }

  class PosStore {
    var products: map<int, Product>
    var recipes: map<int, Recipe>
    var customers: map<int, Customer>
    var suppliers: map<int, Supplier>
    var sales: map<int, Sale>
    var shifts: map<int, Shift>
    var expenses: map<int, Expense>
    var purchaseInvoices: map<int, PurchaseInvoice>
    var payments: map<int, Payment>
    var shopInfo: Option<ShopInfo>
    var currentUser: Option<User>
    var activeShift: Option<Shift>
    var lastSale: Option<Sale>
    var cart: seq<CartItem>
    var isWholesale: bool
    var appliedLoyaltyDiscount: real
    var appliedGeneralDiscount: real
    var deliveryFee: real

    /** Stored records carry their own key. */
    predicate Keyed()
      reads this
    {
      && (forall k :: k in sales ==> sales[k].id == k)
      && (forall k :: k in shifts ==> shifts[k].id == k)
    }

    /** Every shift record is well formed for its state; the session's
      active shift is the stored record of the signed-in user's open shift. */
    predicate ShiftsConsistent()
      reads this
    {
      && (forall k :: k in shifts ==> ShiftWellFormed(shifts[k]))
      && (activeShift.Some? ==>
            && currentUser.Some?
            && activeShift.value.id in shifts
            && shifts[activeShift.value.id] == activeShift.value
            && activeShift.value.status == Active
            && activeShift.value.userId == currentUser.value.id)
      && (currentUser.Some? && activeShift.None? ==>
            forall k :: k in shifts && shifts[k].status == Active ==> shifts[k].userId != currentUser.value.id)
    }

    /** A user has at most one open shift. */
    predicate OneOpenShiftPerUser()
      reads this
    {
      forall a, b ::
        (a in shifts && b in shifts && shifts[a].status == Active && shifts[b].status == Active
         && shifts[a].userId == shifts[b].userId) ==> a == b
    }

    predicate Valid()
      reads this
    {
      Keyed() && ShiftsConsistent() && OneOpenShiftPerUser()
    }

    /** The two terminal state machines: a sale only moves from completed to
      canceled and otherwise never changes; a shift only moves from active
      to closed, and a closed shift never changes. Nothing is deleted. */
    twostate predicate Progress()
      reads this
    {
      && (forall k :: k in old(sales) ==>
            (k in sales
             && (sales[k] == old(sales)[k]
                 || (old(sales)[k].status == Completed && sales[k] == old(sales)[k].(status := Canceled)))))
      && (forall k :: k in old(shifts) ==>
            (k in shifts
             && (shifts[k] == old(shifts)[k] || (old(shifts)[k].status == Active && shifts[k].status == Closed))))
    }

    constructor(shop: Option<ShopInfo>, products0: map<int, Product>, recipes0: map<int, Recipe>,
                customers0: map<int, Customer>, suppliers0: map<int, Supplier>)
      ensures Valid()
      ensures shopInfo == shop && products == products0 && recipes == recipes0
      ensures customers == customers0 && suppliers == suppliers0
      ensures sales == map[] && shifts == map[] && expenses == map[]
      ensures purchaseInvoices == map[] && payments == map[]
      ensures currentUser == None && activeShift == None && lastSale == None
      ensures cart == [] && !isWholesale
      ensures appliedLoyaltyDiscount == 0.0 && appliedGeneralDiscount == 0.0 && deliveryFee == 0.0
    {
      products, recipes, customers, suppliers := products0, recipes0, customers0, suppliers0;
      sales, shifts, expenses, purchaseInvoices, payments := map[], map[], map[], map[], map[];
      shopInfo := shop;
      currentUser, activeShift, lastSale := None, None, None;
      cart, isWholesale := [], false;
      appliedLoyaltyDiscount, appliedGeneralDiscount, deliveryFee := 0.0, 0.0, 0.0;
    }

    // ----- Session -----

    /** `login` once the PIN matched: the user is signed in and their open
      shift, if any, becomes the active shift. */
    method SignIn(user: User)
      requires Valid() && currentUser.None?
      modifies this
      ensures Valid() && Progress()
      ensures currentUser == Some(user)
      ensures activeShift.Some? <==> exists k :: k in shifts && shifts[k].status == Active && shifts[k].userId == user.id
      ensures activeShift.Some? ==> activeShift.value.userId == user.id
      ensures products == old(products) && recipes == old(recipes) && customers == old(customers)
      ensures suppliers == old(suppliers) && sales == old(sales) && shifts == old(shifts)
      ensures expenses == old(expenses) && purchaseInvoices == old(purchaseInvoices) && payments == old(payments)
      ensures shopInfo == old(shopInfo) && lastSale == old(lastSale) && cart == old(cart)
      ensures isWholesale == old(isWholesale) && appliedLoyaltyDiscount == old(appliedLoyaltyDiscount) && appliedGeneralDiscount == old(appliedGeneralDiscount)
      ensures deliveryFee == old(deliveryFee)
    {
      currentUser := Some(user);
      if exists k :: k in shifts && shifts[k].status == Active && shifts[k].userId == user.id {
        var k :| k in shifts && shifts[k].status == Active && shifts[k].userId == user.id;
        activeShift := Some(shifts[k]);
      }
    }

    /** `logout`: the user and the active shift are forgotten; an open shift
      stays open in the database. */
    method SignOut()
      requires Valid()
      modifies this
      ensures Valid() && Progress()
      ensures currentUser == None && activeShift == None
      ensures products == old(products) && recipes == old(recipes) && customers == old(customers)
      ensures suppliers == old(suppliers) && sales == old(sales) && shifts == old(shifts)
      ensures expenses == old(expenses) && purchaseInvoices == old(purchaseInvoices) && payments == old(payments)
      ensures shopInfo == old(shopInfo) && lastSale == old(lastSale) && cart == old(cart)
      ensures isWholesale == old(isWholesale) && appliedLoyaltyDiscount == old(appliedLoyaltyDiscount) && appliedGeneralDiscount == old(appliedGeneralDiscount)
      ensures deliveryFee == old(deliveryFee)
    {
      currentUser := None;
      activeShift := None;
    }

    // ----- Cart -----

    method AddToCart(entry: CatalogEntry, cartItemId: string)
      requires Valid()
      modifies this
      ensures Valid() && Progress()
      ensures cart == old(cart) + [NewLine(entry, cartItemId, isWholesale, products)]
      ensures products == old(products) && recipes == old(recipes) && customers == old(customers)
      ensures suppliers == old(suppliers) && sales == old(sales) && shifts == old(shifts)
      ensures expenses == old(expenses) && purchaseInvoices == old(purchaseInvoices) && payments == old(payments)
      ensures shopInfo == old(shopInfo) && currentUser == old(currentUser) && activeShift == old(activeShift)
      ensures lastSale == old(lastSale) && isWholesale == old(isWholesale) && appliedLoyaltyDiscount == old(appliedLoyaltyDiscount)
      ensures appliedGeneralDiscount == old(appliedGeneralDiscount) && deliveryFee == old(deliveryFee)
    {
      cart := cart + [NewLine(entry, cartItemId, isWholesale, products)];
    }

    method UpdateCartItem(cartItemId: string, u: CartUpdate)
      requires Valid()
      modifies this
      ensures Valid() && Progress()
      ensures cart == UpdatedCart(old(cart), cartItemId, u)
      ensures products == old(products) && recipes == old(recipes) && customers == old(customers)
      ensures suppliers == old(suppliers) && sales == old(sales) && shifts == old(shifts)
      ensures expenses == old(expenses) && purchaseInvoices == old(purchaseInvoices) && payments == old(payments)
      ensures shopInfo == old(shopInfo) && currentUser == old(currentUser) && activeShift == old(activeShift)
      ensures lastSale == old(lastSale) && isWholesale == old(isWholesale) && appliedLoyaltyDiscount == old(appliedLoyaltyDiscount)
      ensures appliedGeneralDiscount == old(appliedGeneralDiscount) && deliveryFee == old(deliveryFee)
    {
      cart := UpdatedCart(cart, cartItemId, u);
    }

    method RemoveFromCart(cartItemId: string)
      requires Valid()
      modifies this
      ensures Valid() && Progress()
      ensures cart == WithoutLine(old(cart), cartItemId)
      ensures products == old(products) && recipes == old(recipes) && customers == old(customers)
      ensures suppliers == old(suppliers) && sales == old(sales) && shifts == old(shifts)
      ensures expenses == old(expenses) && purchaseInvoices == old(purchaseInvoices) && payments == old(payments)
      ensures shopInfo == old(shopInfo) && currentUser == old(currentUser) && activeShift == old(activeShift)
      ensures lastSale == old(lastSale) && isWholesale == old(isWholesale) && appliedLoyaltyDiscount == old(appliedLoyaltyDiscount)
      ensures appliedGeneralDiscount == old(appliedGeneralDiscount) && deliveryFee == old(deliveryFee)
    {
      cart := WithoutLine(cart, cartItemId);
    }

    method ClearCart()
      modifies this
      ensures cart == [] && !isWholesale
      ensures appliedLoyaltyDiscount == 0.0 && appliedGeneralDiscount == 0.0 && deliveryFee == 0.0
      ensures products == old(products) && recipes == old(recipes) && customers == old(customers)
      ensures suppliers == old(suppliers) && sales == old(sales) && shifts == old(shifts)
      ensures expenses == old(expenses) && purchaseInvoices == old(purchaseInvoices) && payments == old(payments)
      ensures shopInfo == old(shopInfo) && currentUser == old(currentUser) && activeShift == old(activeShift)
      ensures lastSale == old(lastSale)
    {
      cart := [];
      appliedLoyaltyDiscount := 0.0;
      appliedGeneralDiscount := 0.0;
      deliveryFee := 0.0;
      isWholesale := false;
    }

    /** Toggling wholesale mode, followed by the repricing effect. */
    method SetWholesale(on: bool)
      requires Valid()
      modifies this
      ensures Valid() && Progress()
      ensures isWholesale == on
      ensures cart == Repriced(old(cart), products, on)
      ensures products == old(products) && recipes == old(recipes) && customers == old(customers)
      ensures suppliers == old(suppliers) && sales == old(sales) && shifts == old(shifts)
      ensures expenses == old(expenses) && purchaseInvoices == old(purchaseInvoices) && payments == old(payments)
      ensures shopInfo == old(shopInfo) && currentUser == old(currentUser) && activeShift == old(activeShift)
      ensures lastSale == old(lastSale) && appliedLoyaltyDiscount == old(appliedLoyaltyDiscount) && appliedGeneralDiscount == old(appliedGeneralDiscount)
      ensures deliveryFee == old(deliveryFee)
    {
      isWholesale := on;
      RepriceCart();
    }

    /** The repricing effect, which also runs whenever the products change. */
    method RepriceCart()
      modifies this
      ensures cart == Repriced(old(cart), products, isWholesale)
      ensures products == old(products) && recipes == old(recipes) && customers == old(customers)
      ensures suppliers == old(suppliers) && sales == old(sales) && shifts == old(shifts)
      ensures expenses == old(expenses) && purchaseInvoices == old(purchaseInvoices) && payments == old(payments)
      ensures shopInfo == old(shopInfo) && currentUser == old(currentUser) && activeShift == old(activeShift)
      ensures lastSale == old(lastSale) && isWholesale == old(isWholesale) && appliedLoyaltyDiscount == old(appliedLoyaltyDiscount)
      ensures appliedGeneralDiscount == old(appliedGeneralDiscount) && deliveryFee == old(deliveryFee)
    {
      if |cart| > 0 {
        cart := Repriced(cart, products, isWholesale);
      }
    }

    // ----- Sale processing -----

    /** `processSale`. Without shop settings or a signed-in user nothing
      happens. There is no active-shift check: a sale made outside a shift
      carries no shift id. `saleId` and `now` stand for the id the database
      assigns and the clock. */
    method ProcessSale(req: SaleRequest, saleId: int, now: int) returns (committed: bool)
      requires Valid() && saleId !in sales
      modifies this
      ensures Valid() && Progress()
      ensures committed <==> old(shopInfo).Some? && old(currentUser).Some?
      ensures recipes == old(recipes) && suppliers == old(suppliers) && shifts == old(shifts)
      ensures expenses == old(expenses) && purchaseInvoices == old(purchaseInvoices) && payments == old(payments)
      ensures shopInfo == old(shopInfo) && currentUser == old(currentUser) && activeShift == old(activeShift)
      ensures !committed ==>
        && sales == old(sales) && lastSale == old(lastSale) && products == old(products)
        && customers == old(customers) && cart == old(cart) && isWholesale == old(isWholesale)
        && appliedLoyaltyDiscount == old(appliedLoyaltyDiscount) && appliedGeneralDiscount == old(appliedGeneralDiscount)
        && deliveryFee == old(deliveryFee)
      ensures committed ==>
        var sale := SaleRecord(saleId, now, old(cart), old(shopInfo).value, req, old(currentUser).value, old(activeShift));
        && sales == old(sales)[saleId := sale]
        && lastSale == Some(sale)
        && products == AfterCommit(old(products), old(cart), old(recipes))
        && customers == ChargeLedger(old(customers), req.customerId, req.paymentDetails.credit,
                                     old(shopInfo).value.loyaltyEnabled, req.redeemedPoints, sale.pointsEarned)
        && cart == [] && !isWholesale
        && appliedLoyaltyDiscount == 0.0 && appliedGeneralDiscount == 0.0 && deliveryFee == 0.0
    {
      if shopInfo.None? || currentUser.None? {
        return false;
      }
      var shop := shopInfo.value;
      var sale := SaleRecord(saleId, now, cart, shop, req, currentUser.value, activeShift);
      sales := sales[saleId := sale];
      lastSale := Some(sale);
      products := CommitStock(products, cart, recipes);
      customers := ChargeLedger(customers, req.customerId, req.paymentDetails.credit,
                                shop.loyaltyEnabled, req.redeemedPoints, sale.pointsEarned);
      ClearCart();
      return true;
    }

    /** `cancelSale`: refused for a missing or already canceled sale and for
      a sale of a closed shift; otherwise the stock of the sale's lines is
      put back using the current recipes, the customer's credit and points
      are reverted, and the sale is marked canceled. */
    method CancelSale(saleId: int) returns (outcome: CancelOutcome)
      requires Valid()
      modifies this
      ensures Valid() && Progress()
      ensures saleId !in old(sales) ==> outcome == SaleNotFound
      ensures saleId in old(sales) && old(sales)[saleId].status == Canceled ==> outcome == AlreadyCanceled
      ensures saleId in old(sales) && old(sales)[saleId].status == Completed && InClosedShift(old(sales)[saleId], old(shifts))
              ==> outcome == ShiftAlreadyClosed
      ensures saleId in old(sales) && old(sales)[saleId].status == Completed && !InClosedShift(old(sales)[saleId], old(shifts))
              ==> outcome == SaleCanceled
      ensures recipes == old(recipes) && suppliers == old(suppliers) && shifts == old(shifts)
      ensures expenses == old(expenses) && purchaseInvoices == old(purchaseInvoices) && payments == old(payments)
      ensures shopInfo == old(shopInfo) && currentUser == old(currentUser) && activeShift == old(activeShift)
      ensures lastSale == old(lastSale) && isWholesale == old(isWholesale) && appliedLoyaltyDiscount == old(appliedLoyaltyDiscount)
      ensures appliedGeneralDiscount == old(appliedGeneralDiscount) && deliveryFee == old(deliveryFee)
      ensures outcome != SaleCanceled ==>
        && sales == old(sales) && products == old(products) && customers == old(customers)
        && cart == old(cart)
      ensures outcome == SaleCanceled ==>
        var sale := old(sales)[saleId];
        && sales == old(sales)[saleId := sale.(status := Canceled)]
        && products == AfterCancel(old(products), sale.items, old(recipes))
        && customers == RefundLedger(old(customers), sale.customerId, sale.paymentDetails.credit,
                                     sale.pointsRedeemed, sale.pointsEarned)
        && cart == Repriced(old(cart), products, isWholesale)
    {
      if saleId !in sales {
        return SaleNotFound;
      }
      var sale := sales[saleId];
      if sale.status == Canceled {
        return AlreadyCanceled;
      }
      if InClosedShift(sale, shifts) {
        return ShiftAlreadyClosed;
      }
      RevertSale(saleId);
      return SaleCanceled;
    }

    /** The accepted half of `cancelSale`. */
    method RevertSale(saleId: int)
      requires Valid() && saleId in sales && sales[saleId].status == Completed
      modifies this
      ensures Valid() && Progress()
      ensures recipes == old(recipes) && suppliers == old(suppliers) && shifts == old(shifts)
      ensures expenses == old(expenses) && purchaseInvoices == old(purchaseInvoices) && payments == old(payments)
      ensures shopInfo == old(shopInfo) && currentUser == old(currentUser) && activeShift == old(activeShift)
      ensures lastSale == old(lastSale) && isWholesale == old(isWholesale) && appliedLoyaltyDiscount == old(appliedLoyaltyDiscount)
      ensures appliedGeneralDiscount == old(appliedGeneralDiscount) && deliveryFee == old(deliveryFee)
      ensures var sale := old(sales)[saleId];
        && sales == old(sales)[saleId := sale.(status := Canceled)]
        && products == AfterCancel(old(products), sale.items, old(recipes))
        && customers == RefundLedger(old(customers), sale.customerId, sale.paymentDetails.credit,
                                     sale.pointsRedeemed, sale.pointsEarned)
        && cart == Repriced(old(cart), products, isWholesale)
    {
      var sale := sales[saleId];
      products := RestoreStock(products, sale.items, recipes);
      customers := RefundLedger(customers, sale.customerId, sale.paymentDetails.credit, sale.pointsRedeemed, sale.pointsEarned);
      sales := sales[saleId := sale.(status := Canceled)];
      RepriceCart();
    }

    // ----- Shifts and expenses -----

    /** `startShift`: needs a signed-in user and refuses while a shift is
      active; otherwise opens a shift with every aggregate at 0. */
    method StartShift(startingCash: real, shiftId: int, now: int) returns (outcome: StartOutcome)
      requires Valid() && shiftId !in shifts
      modifies this
      ensures Valid() && Progress()
      ensures old(currentUser).None? ==> outcome == NoUser
      ensures old(currentUser).Some? && old(activeShift).Some? ==> outcome == ShiftAlreadyActive
      ensures old(currentUser).Some? && old(activeShift).None? ==> outcome == ShiftStarted
      ensures products == old(products) && recipes == old(recipes) && customers == old(customers)
      ensures suppliers == old(suppliers) && sales == old(sales) && expenses == old(expenses)
      ensures purchaseInvoices == old(purchaseInvoices) && payments == old(payments) && shopInfo == old(shopInfo)
      ensures currentUser == old(currentUser) && lastSale == old(lastSale) && cart == old(cart)
      ensures isWholesale == old(isWholesale) && appliedLoyaltyDiscount == old(appliedLoyaltyDiscount) && appliedGeneralDiscount == old(appliedGeneralDiscount)
      ensures deliveryFee == old(deliveryFee)
      ensures outcome != ShiftStarted ==> shifts == old(shifts) && activeShift == old(activeShift)
      ensures outcome == ShiftStarted ==>
        && activeShift == Some(OpenShift(shiftId, old(currentUser).value, now, startingCash))
        && shifts == old(shifts)[shiftId := activeShift.value]
    {
      if currentUser.None? {
        return NoUser;
      }
      if activeShift.Some? {
        return ShiftAlreadyActive;
      }
      var shift := OpenShift(shiftId, currentUser.value, now, startingCash);
      shifts := shifts[shiftId := shift];
      activeShift := Some(shift);
      return ShiftStarted;
    }

    /** `endShift`: with a signed-in user and an active shift, totals the
      shift's completed sales and its expenses, writes the closed record
      and clears the active shift. */
    method EndShift(endingCash: real, now: int) returns (closed: bool)
      requires Valid()
      modifies this
      ensures Valid() && Progress()
      ensures closed <==> old(currentUser).Some? && old(activeShift).Some?
      ensures products == old(products) && recipes == old(recipes) && customers == old(customers)
      ensures suppliers == old(suppliers) && sales == old(sales) && expenses == old(expenses)
      ensures purchaseInvoices == old(purchaseInvoices) && payments == old(payments) && shopInfo == old(shopInfo)
      ensures currentUser == old(currentUser) && lastSale == old(lastSale) && cart == old(cart)
      ensures isWholesale == old(isWholesale) && appliedLoyaltyDiscount == old(appliedLoyaltyDiscount) && appliedGeneralDiscount == old(appliedGeneralDiscount)
      ensures deliveryFee == old(deliveryFee)
      ensures !closed ==> shifts == old(shifts) && activeShift == old(activeShift)
      ensures closed ==>
        var a := old(activeShift).value;
        var c := shifts[a.id];
        && shifts == old(shifts)[a.id := c]
        && c == CloseShift(a, now, endingCash, ShiftCash(sales, a.id), ShiftCard(sales, a.id),
                           ShiftTotal(sales, a.id), ShiftExpenses(expenses, a.id))
        && c.expectedCash == a.startingCash + ShiftCash(sales, a.id) - ShiftExpenses(expenses, a.id)
        && c.difference == endingCash - c.expectedCash
        && activeShift == None
    {
      if currentUser.None? || activeShift.None? {
        return false;
      }
      var a := activeShift.value;
      var cash, card, total := SumShiftSales(sales, a.id);
      var spent := SumShiftExpenses(expenses, a.id);
      var c := CloseShift(a, now, endingCash, cash, card, total, spent);
      shifts := shifts[a.id := c];
      activeShift := None;
      return true;
    }

    /** `addExpense`: refused without an active shift; otherwise recorded
      against it. */
    method AddExpense(description: string, amount: real, expenseId: int, now: int) returns (added: bool)
      requires Valid() && expenseId !in expenses
      modifies this
      ensures Valid() && Progress()
      ensures added <==> old(activeShift).Some?
      ensures products == old(products) && recipes == old(recipes) && customers == old(customers)
      ensures suppliers == old(suppliers) && sales == old(sales) && shifts == old(shifts)
      ensures purchaseInvoices == old(purchaseInvoices) && payments == old(payments) && shopInfo == old(shopInfo)
      ensures currentUser == old(currentUser) && activeShift == old(activeShift) && lastSale == old(lastSale)
      ensures cart == old(cart) && isWholesale == old(isWholesale) && appliedLoyaltyDiscount == old(appliedLoyaltyDiscount)
      ensures appliedGeneralDiscount == old(appliedGeneralDiscount) && deliveryFee == old(deliveryFee)
      ensures !added ==> expenses == old(expenses)
      ensures added ==> expenses == old(expenses)[expenseId := Expense(expenseId, old(activeShift).value.id, description, amount, now)]
    {
      if activeShift.None? {
        return false;
      }
      expenses := expenses[expenseId := Expense(expenseId, activeShift.value.id, description, amount, now)];
      return true;
    }

    // ----- Catalogue -----

    /** `deleteRecipe`: refused while any sale, completed or canceled,
      has a line for the recipe. */
    method DeleteRecipe(recipeId: int) returns (outcome: DeleteOutcome)
      requires Valid()
      modifies this
      ensures Valid() && Progress()
      ensures outcome == (if RecipeSold(old(sales), recipeId) then InUseBySale else Deleted)
      ensures recipes == (if outcome == Deleted then old(recipes) - {recipeId} else old(recipes))
      ensures products == old(products) && customers == old(customers) && suppliers == old(suppliers)
      ensures sales == old(sales) && shifts == old(shifts) && expenses == old(expenses)
      ensures purchaseInvoices == old(purchaseInvoices) && payments == old(payments) && shopInfo == old(shopInfo)
      ensures currentUser == old(currentUser) && activeShift == old(activeShift) && lastSale == old(lastSale)
      ensures cart == old(cart) && isWholesale == old(isWholesale) && appliedLoyaltyDiscount == old(appliedLoyaltyDiscount)
      ensures appliedGeneralDiscount == old(appliedGeneralDiscount) && deliveryFee == old(deliveryFee)
      ensures outcome != Deleted ==> recipes == old(recipes)
    {
      if RecipeSold(sales, recipeId) {
        return InUseBySale;
      }
      recipes := recipes - {recipeId};
      return Deleted;
    }

    /** `deleteProduct`: refused while a recipe uses the product as an
      ingredient, or while a sale has a line that uses it. */
    method DeleteProduct(productId: int) returns (outcome: DeleteOutcome)
      requires Valid()
      modifies this
      ensures Valid() && Progress()
      ensures outcome == (if UsedInRecipe(old(recipes), productId) then InUseByRecipe
                          else if ProductSold(old(sales), old(recipes), productId) then InUseBySale
                          else Deleted)
      ensures products == (if outcome == Deleted then old(products) - {productId} else old(products))
      ensures outcome == Deleted ==> cart == Repriced(old(cart), products, isWholesale)
      ensures recipes == old(recipes) && customers == old(customers) && suppliers == old(suppliers)
      ensures sales == old(sales) && shifts == old(shifts) && expenses == old(expenses)
      ensures purchaseInvoices == old(purchaseInvoices) && payments == old(payments) && shopInfo == old(shopInfo)
      ensures currentUser == old(currentUser) && activeShift == old(activeShift) && lastSale == old(lastSale)
      ensures isWholesale == old(isWholesale) && appliedLoyaltyDiscount == old(appliedLoyaltyDiscount) && appliedGeneralDiscount == old(appliedGeneralDiscount)
      ensures deliveryFee == old(deliveryFee)
      ensures outcome != Deleted ==> products == old(products) && cart == old(cart)
    {
      if UsedInRecipe(recipes, productId) {
        return InUseByRecipe;
      }
      if ProductSold(sales, recipes, productId) {
        return InUseBySale;
      }
      products := products - {productId};
      RepriceCart();
      return Deleted;
    }

    // ----- Ledgers -----

    /** `addCustomer`: a new customer starts with balance 0 and no points. */
    method AddCustomer(name: string, phone: string, address: string, customerId: int) returns (c: Customer)
      requires Valid() && customerId !in customers
      modifies this
      ensures Valid() && Progress()
      ensures c.id == customerId && c.name == name && c.phone == phone && c.address == address
      ensures c.balance == 0.0 && c.loyaltyPoints == 0
      ensures customers == old(customers)[customerId := c]
      ensures products == old(products) && recipes == old(recipes) && suppliers == old(suppliers)
      ensures sales == old(sales) && shifts == old(shifts) && expenses == old(expenses)
      ensures purchaseInvoices == old(purchaseInvoices) && payments == old(payments) && shopInfo == old(shopInfo)
      ensures currentUser == old(currentUser) && activeShift == old(activeShift) && lastSale == old(lastSale)
      ensures cart == old(cart) && isWholesale == old(isWholesale) && appliedLoyaltyDiscount == old(appliedLoyaltyDiscount)
      ensures appliedGeneralDiscount == old(appliedGeneralDiscount) && deliveryFee == old(deliveryFee)
    {
      c := Customer(customerId, name, phone, address, 0.0, 0);
      customers := customers[customerId := c];
    }

    /** `addPurchaseInvoice`: stores the invoice, lowers the supplier's
      balance by its total and raises each line's product stock. */
    method AddPurchaseInvoice(invoice: PurchaseInvoice, invoiceId: int)
      requires Valid() && invoiceId !in purchaseInvoices
      modifies this
      ensures Valid() && Progress()
      ensures purchaseInvoices == old(purchaseInvoices)[invoiceId := invoice.(id := invoiceId)]
      ensures suppliers == AdjustSupplier(old(suppliers), invoice.supplierId, -invoice.totalAmount)
      ensures products.Keys == old(products).Keys
      ensures forall pid :: pid in old(products) ==>
        products[pid] == old(products)[pid].(stock := old(products)[pid].stock + ReceivedQuantity(invoice.items, pid))
      ensures cart == Repriced(old(cart), products, isWholesale)
      ensures recipes == old(recipes) && customers == old(customers) && sales == old(sales)
      ensures shifts == old(shifts) && expenses == old(expenses) && payments == old(payments)
      ensures shopInfo == old(shopInfo) && currentUser == old(currentUser) && activeShift == old(activeShift)
      ensures lastSale == old(lastSale) && isWholesale == old(isWholesale) && appliedLoyaltyDiscount == old(appliedLoyaltyDiscount)
      ensures appliedGeneralDiscount == old(appliedGeneralDiscount) && deliveryFee == old(deliveryFee)
    {
      var received := ReceiveStock(products, invoice.items);
      purchaseInvoices := purchaseInvoices[invoiceId := invoice.(id := invoiceId)];
      suppliers := AdjustSupplier(suppliers, invoice.supplierId, -invoice.totalAmount);
      products := received;
      RepriceCart();
    }

    /** `addPayment`: stores the payment and raises the customer's or the
      supplier's balance by its amount. */
    method AddPayment(payment: Payment, paymentId: int)
      requires Valid() && paymentId !in payments
      modifies this
      ensures Valid() && Progress()
      ensures payments == old(payments)[paymentId := payment.(id := paymentId)]
      ensures payment.paymentType == CustomerPayment ==>
        customers == AdjustCustomer(old(customers), payment.entityId, payment.amount)
      ensures payment.paymentType == SupplierPayment ==>
        suppliers == AdjustSupplier(old(suppliers), payment.entityId, payment.amount)
      ensures products == old(products) && recipes == old(recipes) && sales == old(sales)
      ensures shifts == old(shifts) && expenses == old(expenses) && purchaseInvoices == old(purchaseInvoices)
      ensures shopInfo == old(shopInfo) && currentUser == old(currentUser) && activeShift == old(activeShift)
      ensures lastSale == old(lastSale) && cart == old(cart) && isWholesale == old(isWholesale)
      ensures appliedLoyaltyDiscount == old(appliedLoyaltyDiscount) && appliedGeneralDiscount == old(appliedGeneralDiscount) && deliveryFee == old(deliveryFee)
      ensures payment.paymentType == CustomerPayment ==> suppliers == old(suppliers)
      ensures payment.paymentType == SupplierPayment ==> customers == old(customers)
    {
      payments := payments[paymentId := payment.(id := paymentId)];
      if payment.paymentType == CustomerPayment {
        customers := AdjustCustomer(customers, payment.entityId, payment.amount);
      } else {
        suppliers := AdjustSupplier(suppliers, payment.entityId, payment.amount);
      }
    }
  }
}
