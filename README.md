# A verified model of a restaurant point-of-sale

This project models the business logic of a single-shop point-of-sale web app
in Dafny. The app is written in React and TypeScript and keeps its data in the
browser (IndexedDB through Dexie). The model covers the parts that decide
money, stock and access:

- **the application store** (`AppContext`). The class `Store.PosStore`
  holds the catalogue, the ledgers (sales, shifts, expenses, invoices,
  payments), the session (signed-in user, active shift) and the cart. Its
  methods are the store operations: sign-in and sign-out, the cart
  operations, the wholesale repricing effect, `processSale` and
  `cancelSale`, the shift lifecycle, expenses, the recipe and product delete
  guards, new customers, purchase invoices and payments;
- **sale pricing** (module `Pricing`): subtotal, cost, the general and
  loyalty discounts, tax, total and points earned;
- **stock movements** (module `StockLedger`): the per-product update map
  that `processSale` builds and `cancelSale` reverses, including recipes
  resolved to their ingredients;
- **the screens' own logic**:
  - the cart screen: the discount clamp, point redemption, split bills and
    the addon picker;
  - payment settlement;
  - the sales history filters and summary;
  - the reports: the user filter, gross profit, the top ten items and the
    balance lists;
  - the shift history and its expenses;
  - the recipe, product, purchase, addon, group, user, contact and payment
    dialogs;
  - the inventory statistics, the sidebar and the PIN pad.

Modelling choices:

- **Money.** Amounts are modelled as `real`: exact arithmetic, with no IEEE
  rounding. Bill splitting is computed in whole cents (`int`), as the
  source does.
- **Dates.** Dates are `int` timestamps.
- **New ids and the clock.** The ids the database assigns and the clock
  are parameters. The ids of a new sale, shift, expense, customer,
  purchase invoice and payment must not be in use yet. A cart line's
  `cartItemId` is not required to be unique, because the source does not
  enforce that; updates and removals then act on every line carrying it.
- **Parsed form fields.** A parsed input field is an `Option`: `None`
  stands for an empty field or for `NaN`.
- **JavaScript truthiness** is written out wherever the source relies on
  it:
  - `if (customerId)` treats an id of 0 as no customer (`Types.Attached`);
  - `parseFloat(x) || 0` turns blank, `NaN` and 0 into 0
    (`PaymentModal.Amount`);
  - in the product dialog, a number the user typed is truthy even when it
    is 0, but a stored 0 is falsy (`ProductForm.NumField`).
- **PIN check.** `login` looks the PIN up in the database, which is not
  modelled. The login screen takes the lookup's answer as a parameter.
  Once the PIN has matched, the store's side of `login` is
  `Store.PosStore.SignIn`.

Several things the code does differ from what its screens suggest. They are
modelled as written and stated as lemmas:

- **Tax preview.** The cart screen taxes the amount before the loyalty
  discount. `processSale` taxes it after. So with redeemed points on a
  taxed shop, the preview overstates the total
  (`SalesScreen.PreviewOverstatesTaxOnLoyalty`,
  `SalesScreen.PreviewAndCommitDiffer`).
- **No shift check.** `processSale` does not check for an active shift. A
  sale made without one carries no shift id.
- **Unclamped discount.** `processSale` does not clamp the general
  discount. An oversized fixed discount therefore earns a negative number
  of points (`Pricing.OversizedFixedDiscountEarnsNegativePoints`).
- **Loyalty reversal.** `cancelSale` reverts points whatever the loyalty
  setting. `processSale` only changes them while loyalty is on
  (`Store.RefundAfterCharge`).
- **Cancel uses current recipes.** `cancelSale` resolves recipe lines
  through the current recipes. If a recipe changed after the sale, the
  cancel restores the wrong stock
  (`StockLedger.CancelAfterRecipeChangeDoesNotRestore`).
- **Dead check in `deleteProduct`.** The recipe-line sale check can never
  fire (`Store.SaleCheckReducesToDirectSales`).
- **Card overpayment.** The change is taken from the cash alone, so a card
  overpayment records negative cash
  (`PaymentModal.CardOverpaymentRecordsNegativeCash`).
- **Barcode search.** The menu's barcode search is case-sensitive
  (`MenuScreen.BarcodeMatchIsCaseSensitive`).
- **Stored zeros dropped.** A stored wholesale price or low-stock threshold
  of 0 is dropped when the product dialog is saved untouched
  (`ProductForm.UntouchedEditRoundTrip`).
- **User permissions reset.** Opening the user dialog over a different
  role resets a non-custom user's permissions to the role template
  (`UsersScreen.OpeningResetsNonCustomPermissions`).

## Model

| member | source | states |
|---|---|---|
| Pricing.TaxableIsWhatDiscountsLeave | components/AppContext.tsx:259-268 | the taxed base is never negative, is zero exactly when the general and points discounts together cover the subtotal, otherwise is the subtotal less both discounts, and never exceeds what the general discount leaves |
| Pricing.PlainSaleTotal | components/AppContext.tsx:253-270 | with no discount, no points redeemed and no tax, the total is the subtotal plus the delivery fee and the tax is 0 |
| Pricing.TaxGrowsTheBase | components/AppContext.tsx:268-270 | with tax enabled at a positive rate, the total is the taxed base grown by the rate plus the fee, and the tax is the rate's share of the base |
| Pricing.MoreRedemptionNeverRaisesTotal | components/AppContext.tsx:266-275 | redeeming more points (each worth a non-negative amount) never raises the taxed base, the tax or the total, and leaves the points earned unchanged |
| Pricing.LargerFixedDiscountNeverRaisesTotal | components/AppContext.tsx:259-275 | a larger fixed discount never raises the taxed base or the total, and with a non-negative earning rate never raises the points earned |
| Pricing.TotalCoversDeliveryFee | components/AppContext.tsx:267-270 | tax is never negative, so a recorded total is never below its delivery fee |
| Pricing.SubTotalSnoc | components/AppContext.tsx:253-257 | appending a line raises the subtotal by exactly that line's price-plus-addons times quantity, and the cost by its cost times quantity |
| Pricing.TotalCostIgnoresPrices | components/AppContext.tsx:257 | the cost depends on each line's cost and quantity only; prices and addons never enter it |
| Pricing.SubTotalWithoutAddons | components/AppContext.tsx:253-256 | without addons the subtotal is the plain sum of price times quantity |
| Pricing.SingleLineTotals | components/AppContext.tsx:253-257 | a one-line cart's subtotal and cost are that line's |
| Pricing.PointsNeedLoyaltyAndCustomer | components/AppContext.tsx:272-275 | a sale earns points only with loyalty enabled and a customer attached (an id of 0 is no customer) |
| Pricing.PointsEarnedNonNegative | components/AppContext.tsx:266-275 | when the general discount fits in the subtotal, the points earned are not negative |
| Pricing.PercentageDiscountThenTax | components/AppContext.tsx:259-270 | worked sale: two units at 50, 10% off, 15% tax, no fee, total 103.5 |
| Pricing.OversizedFixedDiscountEarnsNegativePoints | components/AppContext.tsx:259-275 | an unclamped fixed discount larger than the subtotal gives a negative points award |
| StockLedger.CollectStockUpdates | components/AppContext.tsx:290-303 | the update map has one key per product the sale touches, and each entry is that product's whole demand: direct quantities plus ingredient quantity times line quantity |
| StockLedger.AddLine | components/AppContext.tsx:291-302 | one cart line adds its own demand to the map and creates the keys of the products it refers to |
| StockLedger.AddIngredients | components/AppContext.tsx:297-300 | one recipe's ingredients add quantity times line quantity per product |
| StockLedger.UntouchedNotDemanded | components/AppContext.tsx:291-304 | a product no line refers to has zero demand |
| StockLedger.IngredientsNotDemanded | components/AppContext.tsx:297-300 | a product that is not an ingredient has no ingredient demand |
| StockLedger.DemandAppend | components/AppContext.tsx:292-304 | demand is additive over the lines of a cart |
| StockLedger.ApplyStockUpdates | components/AppContext.tsx:305-308 | applying the map keeps every product record but its stock, which is lowered (commit) or raised (cancel) by its entry; entries for missing products do nothing |
| StockLedger.CommitStock | components/AppContext.tsx:290-308 | the stock step of `processSale` lowers each product's stock by exactly its demand |
| StockLedger.RestoreStock | components/AppContext.tsx:338-357 | the stock step of `cancelSale` raises each product's stock by exactly its demand |
| StockLedger.UnreferencedProductUnchanged | components/AppContext.tsx:291-309 | a product the sale does not refer to keeps its whole record through a commit and through a cancel |
| StockLedger.CommitThenCancelRestoresStock | components/AppContext.tsx:338-357 | commit then cancel with the same recipes gives back exactly the product map it started from |
| StockLedger.DirectAndRecipeDemand | components/AppContext.tsx:293-301 | a product sold directly and through a recipe loses the direct quantity plus ingredient quantity times line quantity |
| StockLedger.CancelAfterRecipeChangeDoesNotRestore | components/AppContext.tsx:344 | cancel resolves recipes through the current catalogue: after a recipe's ingredient changes, one product stays short and another ends over |
| Catalog.KnownIngredients | components/AppContext.tsx:161-166 | every kept ingredient is one of the recipe's and refers to an existing product |
| Catalog.RecipeCostSkipsMissing | components/AppContext.tsx:161-166 | ingredients whose product is gone add nothing: the cost is the sum over the known ones |
| Catalog.RecipeCostNonNegative | components/RecipesScreen.tsx:144-147 | with non-negative costs and quantities a recipe's cost is not negative |
| Catalog.RemoveId | components/ProductFormModal.tsx:36-40 | the result holds exactly the ids other than the removed one, and is no longer than the input |
| Catalog.ToggleFlipsMembership | components/MenuManagementScreen.tsx:78 | toggling an id flips its membership and keeps every other id's |
| Catalog.RemoveAbsent | components/RecipesScreen.tsx:72-74 | removing an id that is absent changes nothing |
| Catalog.ToggleTwiceRestores | components/ProductFormModal.tsx:36-40 | selecting a fresh id and unselecting it again restores the list |
| Store.NewLine | components/AppContext.tsx:201-214 | a new cart line has quantity 1, no addons and no notes; a product line has the product's cost and the wholesale price when the cart is in wholesale mode and the product has a non-zero one, else the retail price; a recipe line has the recipe's price and its current cost |
| Store.WithoutLine | components/AppContext.tsx:227-229 | removal keeps exactly the lines with a different cart-line id |
| Store.DroppingUpdateRemovesLine | components/AppContext.tsx:216-225 | an update with a quantity below 1 is exactly a removal |
| Store.UpdateRewritesMatchingLine | components/AppContext.tsx:216-225 | any other update rewrites the given fields of the matching lines and leaves other lines and fields as they were |
| Store.Repriced | components/AppContext.tsx:136-149 | repricing keeps the cart's length |
| Store.RepricingChangesOnlyPrices | components/AppContext.tsx:136-149 | repricing changes only the price, only of product lines whose product still exists, and to that product's price for the mode |
| Store.RepricingForgetsEarlierMode | components/AppContext.tsx:136-149 | repricing for one mode and then another is repricing for the second alone |
| Store.RefundAfterCharge | components/AppContext.tsx:313-320 | with loyalty on, cancel undoes commit exactly on the customer; with loyalty off the balance is restored but the points move by the redeemed less the earned points |
| Store.LedgerRoundTrip | components/AppContext.tsx:361-368 | with loyalty on, committing and cancelling a sale leaves every customer as before |
| Store.SumShiftSales | components/AppContext.tsx:398-403 | the loop returns the cash, card and total of the completed sales stamped with the shift's id, summed over the whole ledger |
| Store.SumShiftExpenses | components/AppContext.tsx:399-404 | the loop returns the sum of the shift's expenses over the whole ledger |
| Store.CloseShift | components/AppContext.tsx:406-412 | the closed record is closed and stamped; its expected cash is start plus cash sales less expenses, and its difference is counted less expected |
| Store.SaleCheckReducesToDirectSales | components/AppContext.tsx:485-497 | once no recipe uses the product, "some sale uses it" holds exactly when some sale has a direct line for it |
| Store.ReceiveStock | components/AppContext.tsx:559-562 | every product's stock rises by the summed quantity of the invoice rows for it, so a product listed twice is raised twice; nothing else changes |
| Store.PosStore.constructor | components/AppContext.tsx:20-48 | a fresh store: given catalogue, empty ledgers, no user, no shift, an empty retail cart with no discounts |
| Store.PosStore.SignIn | components/AppContext.tsx:172-183 | the user is signed in; the active shift is that user's open shift exactly when one exists; every other field of the store is unchanged |
| Store.PosStore.SignOut | components/AppContext.tsx:185-191 | the user and the active shift are forgotten; an open shift stays open in the ledger; every other field of the store is unchanged |
| Store.PosStore.AddToCart | components/AppContext.tsx:201-214 | the cart grows by exactly the new line; every other field of the store is unchanged |
| Store.PosStore.UpdateCartItem | components/AppContext.tsx:216-225 | the cart becomes the updated cart; every other field of the store is unchanged |
| Store.PosStore.RemoveFromCart | components/AppContext.tsx:227-229 | the cart becomes the filter of its lines without the given id, in order; every other field of the store is unchanged |
| Store.PosStore.ClearCart | components/AppContext.tsx:231-237 | the cart is empty and in retail mode, with all three discounts at 0; every other field of the store is unchanged |
| Store.PosStore.SetWholesale | components/AppContext.tsx:136-149 | the mode is set and the cart is repriced for it; every other field of the store is unchanged |
| Store.PosStore.RepriceCart | components/AppContext.tsx:136-149 | the cart is repriced for the current mode; every other field of the store is unchanged |
| Store.PosStore.ProcessSale | components/AppContext.tsx:243-324 | without shop settings or a user nothing changes at all; otherwise the priced sale is recorded as completed and as the last sale, stock is lowered by its demand, the attached customer is charged, and the cart is cleared, with every other field unchanged; the store stays valid |
| Store.PosStore.CancelSale | components/AppContext.tsx:326-373 | a missing, already cancelled, or closed-shift sale is refused with nothing changed; otherwise stock is restored by the current demand, the customer is refunded, the sale becomes cancelled and never completed again, and the cart is repriced, with every other field unchanged |
| Store.PosStore.RevertSale | components/AppContext.tsx:338-372 | for a completed sale: stock is restored by its demand under the current recipes, the customer is refunded, the sale is marked cancelled and the cart repriced; every other field is unchanged and the store stays valid |
| Store.PosStore.StartShift | components/AppContext.tsx:379-393 | refused without a user or while a shift is active, with nothing changed; otherwise a fresh open shift of that user with all aggregates at 0 is stored and becomes active, keeping one open shift per user, with every other field unchanged |
| Store.PosStore.EndShift | components/AppContext.tsx:395-420 | with a user and an active shift, the shift is closed with the ledger totals and the reconciled cash and is no longer active, with every other field unchanged; otherwise nothing changes |
| Store.PosStore.AddExpense | components/AppContext.tsx:422-431 | refused without an active shift, with nothing changed; otherwise exactly one expense is recorded against it and nothing else changes |
| Store.PosStore.DeleteRecipe | components/AppContext.tsx:460-468 | refused exactly when some sale has a line for the recipe, with nothing changed; otherwise only that recipe is removed |
| Store.PosStore.DeleteProduct | components/AppContext.tsx:484-504 | refused when a recipe uses the product or a sale uses it, with nothing changed; otherwise only that product is removed and the cart is repriced, with every other field unchanged |
| Store.PosStore.AddCustomer | components/AppContext.tsx:521-527 | the new customer is stored under its id with balance 0 and no points; every other field of the store is unchanged |
| Store.PosStore.AddPurchaseInvoice | components/AppContext.tsx:553-566 | the invoice is stored, the supplier's balance falls by its total, each row's product stock rises, and the cart is repriced; every other field of the store is unchanged |
| Store.PosStore.AddPayment | components/AppContext.tsx:568-579 | the payment is stored and the customer's or supplier's balance rises by its amount; the other party ledger and every other field of the store are unchanged |
| SalesScreen.DiscountClamp | components/SalesScreen.tsx:212-231 | an empty or non-positive entry clears the discount; otherwise the applied amount is the commit's formula clamped to the subtotal, lies between 0 and the subtotal, and the entered value is kept |
| SalesScreen.RedemptionBounds | components/SalesScreen.tsx:233-252 | the granted points are the least of the request, the balance and what the remaining amount buys, and one of the three; their value is points times the point value, never exceeds what is left after the general discount when the point value is positive, and neither is negative when the balance is not negative, the point value is positive and the general discount fits in the subtotal |
| SalesScreen.RedeemedPointsRoundTrip | components/SalesScreen.tsx:682-697 | the points granted on screen reach `processSale` unchanged |
| SalesScreen.CommittedDiscountMatchesApplied | components/SalesScreen.tsx:212-231 | when the formula fits in the subtotal, the commit computes the same general discount the cart applied |
| SalesScreen.PreviewMatchesCommitWithoutLoyalty | components/SalesScreen.tsx:254-256 | without redeemed points, with a fitting discount and a non-negative rate, the previewed total is the recorded total |
| SalesScreen.PreviewOverstatesTaxOnLoyalty | components/SalesScreen.tsx:254-256 | with redeemed points on a taxed shop, the preview exceeds the recorded total by exactly the tax on the loyalty discount |
| SalesScreen.PreviewAndCommitDiffer | components/SalesScreen.tsx:254-256 | worked case: subtotal 100 with 10 points redeemed at 10% tax shows 100 and records 99 |
| SalesScreen.SplitAmounts | components/SalesScreen.tsx:638-652 | the parts add up to the total in cents; every part but the first is the floor share, and the first carries the remainder |
| SalesScreen.SplitCheckout.constructor | components/SalesScreen.tsx:638-645 | split mode starts off |
| SalesScreen.SplitCheckout.Start | components/SalesScreen.tsx:638-645 | split mode starts with the computed amounts, no parts paid and a zero running total |
| SalesScreen.SplitCheckout.Cancel | components/SalesScreen.tsx:654-660 | split mode ends and its state is reset |
| SalesScreen.SplitCheckout.ConfirmPayment | components/SalesScreen.tsx:667-707 | outside split mode the payment is committed at once; in split mode each part is added to the running sum, and nothing is committed until the last part is reached; from then on every confirm commits the component-wise sum of all parts so far, since the index stays on the last part |
| SalesScreen.WithoutAddonIds | components/SalesScreen.tsx:53 | the result keeps exactly the selected addons whose id is not in the group |
| SalesScreen.SingleChoiceKeepsOne | components/SalesScreen.tsx:50-54 | in a single-choice group the picked addon is the only one of its group selected; other addons are kept |
| SalesScreen.MultipleChoiceToggles | components/SalesScreen.tsx:55-61 | in a multiple-choice group the addon's id flips and every other addon is kept |
| PaymentModal.Closed | components/PaymentModal.tsx:71-76 | closing the dialog blanks both inputs and hides the success view |
| PaymentModal.ConfirmSettles | components/PaymentModal.tsx:38-54 | a confirmed bill records no credit and the card as entered; with the change taken off, what is paid never exceeds the bill and falls short of it by at most the 0.001 tolerance |
| PaymentModal.CreditCoversBill | components/PaymentModal.tsx:62-63 | cash, card and credit add up to the bill; credit needs a customer and something left to pay |
| PaymentModal.CardOverpaymentRecordsNegativeCash | components/PaymentModal.tsx:46-54 | a card overpayment of a 50 bill by 100 records cash -50 |
| SalesHistory.FilteredSalesExact | components/SalesHistoryScreen.tsx:222-251 | the list holds exactly the sales the filters accept, each as often as it is recorded, newest first |
| Seqs.SortDescStable | components/SalesHistoryScreen.tsx:251 | the largest-first sort is stable, as `Array.prototype.sort` is: for every key, the elements with that key leave the sort in the order they entered it (also used by components/ShiftsScreen.tsx:81 and components/ReportsScreen.tsx:82) |
| SalesHistory.AllFiltersKeepEverything | components/SalesHistoryScreen.tsx:234-238 | with every filter at "all" and a blank search, every sale is listed |
| SalesHistory.ProfitIsRevenueLessCost | components/SalesHistoryScreen.tsx:257 | the summed profit is the summed revenue less the summed cost |
| SalesHistory.SummaryStep | components/SalesHistoryScreen.tsx:254-259 | a cancelled sale is counted but adds no revenue or profit; a completed one adds its amount and margin |
| SalesHistory.DetailsReproduceCommit | components/SalesHistoryScreen.tsx:47-57 | for a sale `processSale` recorded, the details dialog shows the general and loyalty discounts it was priced with, while the point value is unchanged |
| Reports.ReportSalesExact | components/ReportsScreen.tsx:53-57 | a sale is reported exactly when it is completed and passes the user filter |
| Reports.GrossProfitIsSumOfMargins | components/ReportsScreen.tsx:61-69 | the gross profit is the sum of the sales' margins, which is the profit the history shows for the same sales |
| Reports.AddItems | components/ReportsScreen.tsx:73-81 | one sale's lines are folded into the counts; each key keeps its running quantity and its first-seen position |
| Reports.CountItems | components/ReportsScreen.tsx:71-81 | after the loops every key seen maps to its quantity summed over all sales, and keys are ordered by first appearance |
| Reports.Values | components/ReportsScreen.tsx:82 | the rows are the counts of the keys in first-seen order |
| Reports.TopItems | components/ReportsScreen.tsx:71-84 | at most ten rows, largest quantity first, each with its true total and no item twice; any item left out sold no more than every row shown |
| Reports.BalanceListsExact | components/ReportsScreen.tsx:86-87 | the balance lists hold exactly the customers and the suppliers whose balance is not zero |
| Reports.ExportedDiscountIsBothDiscounts | components/ReportsScreen.tsx:119 | the corrected discount column is the general plus the loyalty discount of a recorded sale |
| Reports.ExportedDiscountCountsDeliveryFee | components/ReportsScreen.tsx:119 | as written, a sale of 100 with no discount and a 10 fee exports a discount of -10 |
| ShiftsScreen.ShiftHistoryExact | components/ShiftsScreen.tsx:78-82 | the history lists exactly the closed shifts, each as often as recorded, latest start first |
| ShiftsScreen.ShiftExpenseListExact | components/ShiftsScreen.tsx:164-167 | the listed expenses are exactly the active shift's, and they add up to what closing the shift subtracts |
| ShiftsScreen.FilteredExpenseTotal | components/AppContext.tsx:404 | summing a shift's filtered expenses equals summing all expenses counting only that shift's |
| ShiftsScreen.AcceptedExpensesLowerExpectedCash | components/ShiftsScreen.tsx:177-186 | expenses that passed the form add up to at least 0, so a closed shift never expects more than start plus cash sales |
| RecipesScreen.SubmitRules | components/RecipesScreen.tsx:76-96 | a blank name, no price, no category or no rows is refused; an edit is saved under its id and a new or cloned recipe added; the saved rows are exactly those with a positive quantity, in order |
| RecipesScreen.UntouchedEditSavesSameRecipe | components/RecipesScreen.tsx:76-92 | saving an edit dialog untouched updates the recipe under its own id with its own fields |
| RecipesScreen.UntouchedCloneAddsCopy | components/RecipesScreen.tsx:91-95 | saving a clone untouched adds a new recipe with the prefixed name and the same price, category, rows and addon groups |
| RecipesScreen.NewRowIsInert | components/RecipesScreen.tsx:51-55 | a fresh row is dropped on submit until given a quantity, removing it restores the rows, and one is added only when raw materials exist |
| RecipesScreen.CardProfit | components/RecipesScreen.tsx:144-149 | the card's profit is the price less cost times quantity over the ingredients that still exist |
| RecipesScreen.Snapshot | components/RecipesScreen.tsx:21 | the snapshot has one value per row, each that row's current product and quantity |
| RecipesScreen.IngredientRow.constructor | components/RecipesScreen.tsx:51-55 | a row object holds the given product and quantity |
| RecipesScreen.ChangeIngredient | components/RecipesScreen.tsx:57-65 | exactly the chosen field of the row at the index takes the new value |
| RecipesScreen.EditSharedRows | components/RecipesScreen.tsx:57-65 | as written, the form's rows are the stored recipe's, so a change reaches the stored recipe before any save |
| RecipesScreen.CanceledEditChangesStoredRecipe | components/RecipesScreen.tsx:41 | as written, changing 2 to 5 and closing the dialog leaves the stored recipe at 5 |
| RecipesScreen.CopyRows | components/RecipesScreen.tsx:41 | fresh, distinct row objects holding the same values |
| RecipesScreen.EditCopiedRows | components/RecipesScreen.tsx:57-65 | editing copies leaves the stored recipe unchanged, and the form holds the stored values with the one change |
| RecipesScreen.CanceledEditOnCopiesKeepsStoredRecipe | components/RecipesScreen.tsx:57-65 | with copies, the same cancelled edit leaves the stored recipe at 2 |
| PurchasesScreen.NewItemRowIsFree | components/PurchasesScreen.tsx:38-43 | a new row adds nothing to the total, and removing it restores the rows |
| PurchasesScreen.ChangeItem | components/PurchasesScreen.tsx:45-56 | only the chosen field of the row at the index changes; every other row is unchanged |
| PurchasesScreen.TotalAfterChange | components/PurchasesScreen.tsx:32-34 | after a change, the total moves by the changed row's new value less its old one |
| PurchasesScreen.SubmitRules | components/PurchasesScreen.tsx:62-77 | no supplier or no rows is refused; a form with no row of positive quantity and non-negative cost saves nothing; otherwise the saved rows are exactly the kept ones, in order, and the saved total is their value, which the code as written matches only when every row is kept |
| PurchasesScreen.AsWrittenTotalCountsDroppedRows | components/PurchasesScreen.tsx:69-75 | as written, a dropped row still counts: one row saved under a total that includes a dropped row |
| PurchasesScreen.ValidatedFormsAgree | components/PurchasesScreen.tsx:32-34 | when no row has a negative quantity or cost, which is what the inputs' `min="0"` admits (components/PurchasesScreen.tsx:110-111), the code as written and the corrected submit save the same invoice |
| Inventory.FilteredMaterialsExact | components/InventoryScreen.tsx:88-94 | only raw materials are listed: all of them for a blank term, else those whose name contains the term ignoring case |
| Inventory.StatsStep | components/InventoryScreen.tsx:96-104 | a sellable product changes no card; a raw material adds one item and its stock value, and one low-stock item when it is low |
| Inventory.TotalValueNonNegative | components/InventoryScreen.tsx:97 | with non-negative stock and cost the total value is not negative; the store does not keep stock non-negative (a sale deducts stock without checking it), so this holds only where the stock has not been oversold |
| Inventory.AdjustStock | components/InventoryScreen.tsx:40-47 | an empty or negative entry is refused; otherwise the saved stock is the entry |
| Inventory.AdjustStockOnlyStock | components/InventoryScreen.tsx:40-47 | an accepted adjustment changes the stock alone, and re-entering the current stock saves the product unchanged |
| MenuScreen.AddonSubmitRules | components/MenuManagementScreen.tsx:23-36 | refused exactly for a blank name or an empty price; an edit keeps the addon's id; saving untouched writes the addon back |
| MenuScreen.ToggleGroupAddonFlips | components/MenuManagementScreen.tsx:78 | ticking an addon flips its membership of the group alone, and ticking it twice restores the group |
| MenuScreen.GroupSubmitRules | components/MenuManagementScreen.tsx:68-85 | refused exactly for a blank name; an edit keeps the group's id; saving untouched writes the group back |
| MenuScreen.FilteredProductsExact | components/MenuManagementScreen.tsx:120 | no raw material is listed; an empty term lists every sellable product; otherwise a sellable product is listed exactly when its name matches ignoring case or its barcode matches |
| MenuScreen.BarcodeMatchIsCaseSensitive | components/MenuManagementScreen.tsx:120 | the barcode "AB12" is found by "AB" but not by "ab" |
| ProductForm.NumberFieldRules | components/ProductFormModal.tsx:48-53 | an emptied field saves 0 for price, cost and stock and no value for the optional fields; an entered number is saved as entered |
| ProductForm.RawMaterialFlagIsFixed | components/ProductFormModal.tsx:27-56 | no edit changes the raw-material flag or whether the save adds or updates |
| ProductForm.UntouchedEditRoundTrip | components/ProductFormModal.tsx:19-56 | saving an edit untouched writes the product back, except that a stored 0 wholesale price or threshold is dropped |
| ProductForm.TypedZeroIsKept | components/ProductFormModal.tsx:52-53 | a retyped 0 wholesale price is kept where the stored 0 is dropped |
| ProductForm.ToggleGroupFlips | components/ProductFormModal.tsx:36-40 | ticking a group flips its membership alone and leaves every other field of the form |
| UsersScreen.RoleTemplates | components/UserManagementScreen.tsx:59-80 | admin holds every permission; manager all but settings and user management; cashier exactly sales, history and shifts; custom none; each template contains the one below |
| UsersScreen.RoleAndPermissionEdits | components/UserManagementScreen.tsx:120-129 | choosing a non-custom role gives its template; choosing custom keeps the boxes; ticking a box changes that permission alone and makes the role custom |
| UsersScreen.PinRules | components/UserManagementScreen.tsx:133-161 | a new user is saved exactly with a four-character PIN matching its confirmation; an edit with an empty PIN or such a PIN, keeping its id and, for an empty field, its old PIN |
| UsersScreen.UntouchedEditKeepsUser | components/UserManagementScreen.tsx:106-124 | saving an edit untouched keeps a custom user, or one holding its role's template, exactly as it was |
| UsersScreen.OpeningResetsNonCustomPermissions | components/UserManagementScreen.tsx:106-124 | a cashier granted discounts loses them when the dialog last left on another role is saved untouched |
| Sidebar.FilterKeepsOrder | components/Sidebar.tsx:40-42 | filtering an ordered list keeps it ordered |
| Sidebar.OrderedScreensRanked | components/Sidebar.tsx:29-35 | the menu order lists all eleven screens, each once, in rank order |
| Sidebar.NavItemsExact | components/Sidebar.tsx:25-45 | no user sees nothing; a screen is listed exactly when its permission is held, in menu order and never twice; an admin sees all eleven |
| LoginScreen.LoginPad.constructor | components/LoginScreen.tsx:8-10 | no user picked, an empty PIN and no error |
| LoginScreen.LoginPad.SelectUser | components/LoginScreen.tsx:93 | the picked user is selected and the PIN is kept |
| LoginScreen.LoginPad.PressDigit | components/LoginScreen.tsx:12-16 | a digit is appended only while fewer than four are entered |
| LoginScreen.LoginPad.Backspace | components/LoginScreen.tsx:18-20 | the last digit is removed, and an empty PIN stays empty |
| LoginScreen.LoginPad.PressLogin | components/LoginScreen.tsx:22-34 | without a user or four digits no attempt is made and four digits are asked for; otherwise the attempt carries the user's id and the PIN, and a refusal clears the PIN |
| LoginScreen.LoginPad.Back | components/LoginScreen.tsx:71 | back to the user list with the PIN and the error cleared |
| LoginScreen.FourDigitsReachLogin | components/LoginScreen.tsx:12-34 | four digits on a fresh pick reach an attempt with exactly those digits; a fifth is ignored |
| Parties.FormatBalance | components/CustomersScreen.tsx:58-66 | a negative balance is a debt, a positive one a credit, zero is settled; a shown amount is positive and is the balance's size |
| Parties.FormatBalanceRoundTrip | components/SuppliersScreen.tsx:142-150 | the label gives the balance back |
| Parties.FilteredContactsExact | components/CustomersScreen.tsx:19-28 | a blank search keeps the list; otherwise exactly the contacts whose name matches ignoring case or whose phone contains the lower-cased term, with their multiplicities |
| Parties.PhoneMatchLowersTermOnly | components/SuppliersScreen.tsx:103-112 | "AB" finds the name "Ab" but not the phone "AB" |
| Parties.ContactSubmitRules | components/CustomerFormModal.tsx:22-51 | refused exactly for a blank name or phone; an edit changes the three contact fields and keeps id, balance and points; saving untouched writes the record back |
| Parties.Entities | components/PaymentFormModal.tsx:19 | the selectable ids are the customers' for a customer payment, else the suppliers' |
| Parties.OpenPaymentFormRules | components/PaymentFormModal.tsx:19-25 | a fresh dialog starts on the first selectable party with no amount and today's date, and is refused until an amount is entered, then only when nobody is selectable |
| Parties.SubmitPayment | components/PaymentFormModal.tsx:35-49 | refused exactly without a party or with an empty or non-positive amount; otherwise the payment carries the form's fields |
| Parties.PaymentRaisesBalance | components/PaymentFormModal.tsx:42-47 | recording an accepted payment strictly raises the chosen party's balance and touches no other party |

## Left out

- Date-range filters: the date pickers of the reports (`components/ReportsScreen.tsx:26-51`) and of the sales history (`components/SalesHistoryScreen.tsx:225-233`) compare `Date` objects built from strings; the models of both lists leave the range out.
- Floating point: amounts are exact reals, so `toFixed`, IEEE rounding and the 0.001 tolerance's purpose are not captured; split amounts are whole cents as in the source.
- SalesScreen.RedemptionBounds: requires a non-zero point value (`poundPerPoint`); with 0 the source divides by zero and gets `Infinity` or `NaN`, which is not modelled.
- Persistence: the Dexie database, its transactions, `async`/`Promise.all` and the order of writes are not modelled; each store operation is one atomic state change.
- Printing, receipts, kitchen tickets, the shift report and the CSV export (`components/ReportsScreen.tsx:95-153`, apart from the discount column) are not modelled.
- The PIN lookup of `login` is a database query; its answer is a parameter of `LoginScreen.LoginPad.PressLogin`, and `Store.PosStore.SignIn` is the store's side once the PIN matched.
- Ids and the clock: new ids and `Date.now()` are parameters; the model demands only that a new id is not in use.
- Browser form validation (`required`, `min` and `step` attributes) is not modelled: the models accept every value the handlers accept, including negative numbers that an unmodified browser would refuse to submit. The product dialog's category is `None` when nothing was chosen.
- Text matching is ASCII-only: `Text.ToLower` maps only `A`-`Z`, and `Text.IsBlank` treats only space, tab, line feed, carriage return, vertical tab and form feed as blank, where JavaScript's `toLowerCase` and `trim` cover all of Unicode. This affects the searches (`Inventory.FilteredMaterials`, `MenuScreen.FilteredProducts`, `Parties.FilteredCustomers`, `Parties.FilteredSuppliers`, `SalesHistory.SearchHit`) and the blank-field checks (`MenuScreen.SubmitAddon`, `MenuScreen.SubmitGroup`, `Parties.SubmitCustomer`, `Parties.SubmitSupplier`, `RecipesScreen.SubmitRecipe`, `ShiftsScreen.ExpenseAccepted`).
- `NaN` in number inputs is `None`; the parsing itself is not modelled.
- Reports.TopItems: a row's name is the name of the first line seen with that key; lines of the same key with another name are counted under it.
- The settings and shop-information screen, the printers screen, the dashboard and the categories screen are not modelled.
- Thin store operations that write a record straight through are not modelled: `addRecipe`, `updateRecipe`, `addProduct` (which defaults the cost and the low-stock threshold to 0), `updateProduct`, the category operations, `updateCustomer`, `deleteCustomer`, the supplier operations, the addon and addon-group operations, `updateShopInfo` and the shift-report printing hook.
- React plumbing (contexts, memoisation, rendering, modals opening and closing) is not modelled beyond the state each handler writes.
- The customer search of the cart screen (`components/SalesScreen.tsx:174`) and the effect that resets the cart screen's fields when the cart empties (`components/SalesScreen.tsx:197-210`) are not modelled.

## Findings

| source | as written | input that shows it | evidently intended | confidence | as-written member | corrected member |
|---|---|---|---|---|---|---|
| components/ReportsScreen.tsx:119 | the exported discount column is `subTotal - (totalAmount - taxAmount)`, which also subtracts the delivery fee | a sale of 100 with no discount and a delivery fee of 10 exports a discount of -10 | the column is the general discount plus the loyalty discount | not executed | Reports.ExportedDiscountCountsDeliveryFee | Reports.ExportedDiscountIsBothDiscounts |
| components/PurchasesScreen.tsx:32-34 | the invoice total is taken over every row, including rows the submit drops (quantity not positive or cost negative) | rows (2 units at 10) and (-1 unit at 10): one row saved under a total of 10 instead of 20; the row inputs carry `min="0"` (components/PurchasesScreen.tsx:110-111) and the form at components/PurchasesScreen.tsx:87 has no `noValidate`, so the browser refuses -1 unless its validation is bypassed, and with every row at least 0 the two agree (`PurchasesScreen.ValidatedFormsAgree`) | the total is taken over the rows saved | not executed; low, reachable only past browser validation | PurchasesScreen.AsWrittenTotalCountsDroppedRows | PurchasesScreen.SubmitRules |
| components/RecipesScreen.tsx:41 | the form copies the list of ingredient rows, not the rows, then writes into them in place, so an edit reaches the stored recipe before any save | a stored row of 2 units changed to 5 in the dialog, which is then closed without saving: the stored recipe asks for 5 | an edit touches only the form until it is saved | not executed | RecipesScreen.CanceledEditChangesStoredRecipe | RecipesScreen.CanceledEditOnCopiesKeepsStoredRecipe |
