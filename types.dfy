/** The entities of the point-of-sale system, one datatype per record kind of
    types.ts. Money is `real`, dates and timestamps are opaque ordered `int`s,
    and an optional field is an `Option`. */
module Types {

  datatype Option<+T> = None | Some(value: T) {
    function GetOr(default: T): T {
      if Some? then value else default
    }
  }

  datatype Result<+T, +E> = Ok(value: T) | Err(error: E)

  /** JavaScript truthiness of an optional numeric id: `null`, `undefined`
      and `0` are all falsy, so `if (sale.customerId)` skips all three. */
  predicate Attached(id: Option<int>) {
    id.Some? && id.value != 0
  }

  datatype DiscountType = Fixed | Percentage | NoDiscount

  /** Whether a cart line refers to a product or to a recipe. */
  datatype ItemType = ProductItem | RecipeItem

  datatype SelectionType = Single | Multiple

  /** The business part of the shop configuration (name, address, phone and
      logo are display fields and are not modelled). */
  datatype ShopInfo = ShopInfo(
    loyaltyEnabled: bool,
    pointsPerPound: real,   // points earned for one unit of currency
    poundPerPoint: real,    // currency value of one point when redeemed
    taxEnabled: bool,
    taxRate: real           // a percentage: 15 means 15%
  )

  datatype Addon = Addon(id: int, name: string, price: real)

  datatype AddonGroup = AddonGroup(id: int, name: string, selectionType: SelectionType, addonIds: seq<int>)

  datatype Product = Product(
    id: int,
    name: string,
    price: real,                    // retail price
    wholesalePrice: Option<real>,
    cost: real,
    stock: real,
    categoryId: int,
    isRawMaterial: bool,
    unit: string,
    barcode: Option<string>,
    lowStockThreshold: Option<real>,
    addonGroupIds: seq<int>         // an absent list is the empty list
  )

  /** `quantity` of raw-material product `productId` consumed per unit sold. */
  datatype Ingredient = Ingredient(productId: int, quantity: real)

  datatype Recipe = Recipe(
    id: int,
    name: string,
    price: real,
    categoryId: int,
    ingredients: seq<Ingredient>,
    addonGroupIds: seq<int>
  )

  datatype Customer = Customer(
    id: int,
    name: string,
    phone: string,
    address: string,
    balance: real,        // negative: the customer owes the shop
    loyaltyPoints: int
  )

  datatype Supplier = Supplier(id: int, name: string, phone: string, address: string, balance: real)

  /** The permission flags of UserPermissions; a user's permissions are the
      set of flags that are true. */
  datatype Permission =
    | CanAccessSales | CanGiveDiscount | CanAccessSalesHistory | CanCancelSales
    | CanAccessMenu | CanManageMenu
    | CanAccessInventory | CanManageInventory
    | CanAccessCustomers | CanManageCustomers
    | CanAccessSuppliers | CanManageSuppliers
    | CanAccessPurchases | CanManagePurchases
    | CanAccessPayments | CanManagePayments
    | CanAccessReports | CanAccessSettings | CanManageUsers
    | CanAccessShifts | CanManageShifts

  datatype UserRole = Admin | Manager | Cashier | Custom

  datatype User = User(id: int, name: string, pin: string, role: UserRole, permissions: set<Permission>)

  /** One cart line. `price` is the base price without addons, `cost` the
      product cost or the computed recipe cost frozen when the line was added. */
  datatype CartItem = CartItem(
    cartItemId: string,
    id: int,
    name: string,
    price: real,
    cost: real,
    quantity: real,
    itemType: ItemType,
    selectedAddons: seq<Addon>,
    notes: string
  )

  datatype PaymentDetails = PaymentDetails(cash: real, card: real, credit: real)

  datatype SaleStatus = Completed | Canceled

  datatype Sale = Sale(
    id: int,
    date: int,
    items: seq<CartItem>,
    subTotal: real,
    discountType: DiscountType,
    discountValue: real,      // the entered value: 10 for 10%, not the amount
    taxAmount: real,
    deliveryFee: real,
    totalAmount: real,
    totalCost: real,
    customerId: Option<int>,
    userId: int,
    userName: string,
    paymentDetails: PaymentDetails,
    pointsRedeemed: int,
    pointsEarned: int,
    status: SaleStatus,
    shiftId: Option<int>
  )

  datatype PaymentType = CustomerPayment | SupplierPayment

  datatype Payment = Payment(id: int, date: int, paymentType: PaymentType, entityId: int, amount: real)

  datatype Expense = Expense(id: int, shiftId: int, description: string, amount: real, date: int)

  datatype ShiftStatus = Active | Closed

  datatype Shift = Shift(
    id: int,
    userId: int,
    userName: string,
    startTime: int,
    endTime: Option<int>,     // None while the shift is open
    status: ShiftStatus,
    startingCash: real,
    endingCash: real,         // counted at close
    cashSales: real,
    cardSales: real,
    totalExpenses: real,
    totalSales: real,
    expectedCash: real,       // startingCash + cashSales - totalExpenses
    difference: real          // endingCash - expectedCash
  )

  datatype PurchaseItem = PurchaseItem(productId: int, quantity: real, cost: real)

  datatype PurchaseInvoice = PurchaseInvoice(id: int, supplierId: int, date: int, items: seq<PurchaseItem>, totalAmount: real)

  datatype Screen =
    | Sales | Menu | Inventory | Customers | Suppliers | Purchases
    | Reports | SalesHistory | Settings | Users | Shifts

  /** The cash identity a closed shift's record documents. */
  predicate CashReconciled(s: Shift) {
    && s.expectedCash == s.startingCash + s.cashSales - s.totalExpenses
    && s.difference == s.endingCash - s.expectedCash
  }
}
