/** The cart screen's own arithmetic: the general-discount clamp, the
    loyalty redemption clamp, the total it previews, the request it hands to
    `processSale`, bill splitting and the addon picker. */
module SalesScreen {
  import opened Types
  import opened Sums
  import opened Pricing
  import opened Seqs

  // ---------------------------------------------------------------------
  // General discount (the effect on the discount input)

  /** What the discount input leaves in the context: the amount shown as
      applied, and the entered value kept for `processSale`. */
  datatype DiscountState = DiscountState(applied: real, value: real)

  /** `input` is the parsed discount field; `None` stands for NaN. The
      amount is the commit's formula clamped to the subtotal. */
  function DiscountEffect(input: Option<real>, discountType: DiscountType, subTotal: real): DiscountState {
    if input.None? || input.value <= 0.0 then DiscountState(0.0, 0.0)
    else DiscountState(Min(GeneralDiscount(discountType, input.value, subTotal), subTotal), input.value)
  }

  /** An unparseable or non-positive entry clears both fields; otherwise the
      entered value is kept and the applied amount is the commit's discount
      when it fits in the subtotal and the subtotal itself when it does not.
      On a non-negative subtotal the amount lies between 0 and the subtotal. */
  lemma DiscountClamp(input: Option<real>, discountType: DiscountType, subTotal: real)
    ensures var d := DiscountEffect(input, discountType, subTotal);
      && (input.None? || input.value <= 0.0 ==> d == DiscountState(0.0, 0.0))
      && (input.Some? && input.value > 0.0 ==>
            && d.value == input.value
            && d.applied <= subTotal
            && (GeneralDiscount(discountType, input.value, subTotal) <= subTotal ==>
                  d.applied == GeneralDiscount(discountType, input.value, subTotal))
            && (GeneralDiscount(discountType, input.value, subTotal) > subTotal ==> d.applied == subTotal))
      && (subTotal >= 0.0 ==> 0.0 <= d.applied <= subTotal)
  {
    var d := DiscountEffect(input, discountType, subTotal);
    if input.Some? && input.value > 0.0 && subTotal >= 0.0 && discountType == Percentage {
      MulNonNegative(subTotal, input.value / 100.0);
    }
  }

  // ---------------------------------------------------------------------
  // Loyalty redemption (handleRedeemPoints)

  datatype Redemption =
    | Unchanged                             // no customer or no shop: nothing happens
    | Cleared                               // unparseable or non-positive request
    | Applied(points: int, discount: real)  // points granted and their value

  /** The most points that may be redeemed: the customer's balance, and no
      more than the amount left after the general discount buys. */
  function MaxRedeemable(customer: Customer, shop: ShopInfo, subTotal: real, appliedGeneral: real): int
    requires shop.poundPerPoint != 0.0
  {
    if customer.loyaltyPoints <= ((subTotal - appliedGeneral) / shop.poundPerPoint).Floor
    then customer.loyaltyPoints
    else ((subTotal - appliedGeneral) / shop.poundPerPoint).Floor
  }

  /** `requested` is the parsed points field (`None` for NaN). */
  function RedeemPoints(customer: Option<Customer>, shop: Option<ShopInfo>, requested: Option<int>,
                        subTotal: real, appliedGeneral: real): Redemption
    requires shop.Some? ==> shop.value.poundPerPoint != 0.0
  {
    if customer.None? || shop.None? then Unchanged
    else if requested.None? || requested.value <= 0 then Cleared
    else
      var max := MaxRedeemable(customer.value, shop.value, subTotal, appliedGeneral);
      var points := if requested.value <= max then requested.value else max;
      Applied(points, points as real * shop.value.poundPerPoint)
  }

  /** The granted points are the least of the request, the customer's
      points and the whole points the remaining amount buys, and their value
      is points times the point value. With a positive point value the
      loyalty discount therefore never exceeds what is left after the
      general discount. */
  lemma RedemptionBounds(customer: Option<Customer>, shop: Option<ShopInfo>, requested: Option<int>,
                         subTotal: real, appliedGeneral: real)
    requires shop.Some? ==> shop.value.poundPerPoint != 0.0
    ensures var r := RedeemPoints(customer, shop, requested, subTotal, appliedGeneral);
      && (customer.None? || shop.None? ==> r == Unchanged)
      && (customer.Some? && shop.Some? && (requested.None? || requested.value <= 0) ==> r == Cleared)
      && (r.Applied? ==>
            var cap := ((subTotal - appliedGeneral) / shop.value.poundPerPoint).Floor;
            && r.points <= requested.value
            && r.points <= customer.value.loyaltyPoints
            && r.points <= cap
            && (r.points == requested.value || r.points == customer.value.loyaltyPoints || r.points == cap)
            && r.discount == r.points as real * shop.value.poundPerPoint
            && (shop.value.poundPerPoint > 0.0 ==> r.discount <= subTotal - appliedGeneral)
            && (customer.value.loyaltyPoints >= 0 && shop.value.poundPerPoint > 0.0 && subTotal >= appliedGeneral
                ==> r.points >= 0 && r.discount >= 0.0))
  {
    var r := RedeemPoints(customer, shop, requested, subTotal, appliedGeneral);
    if r.Applied? {
      var ppp := shop.value.poundPerPoint;
      if ppp > 0.0 {
        FloorTimesBelow(r.points, subTotal - appliedGeneral, ppp);
        if subTotal >= appliedGeneral {
          QuotientNonNegative(subTotal - appliedGeneral, ppp);
          if r.points >= 0 {
            MulNonNegative(r.points as real, ppp);
          }
        }
      }
    }
  }

  lemma QuotientNonNegative(x: real, u: real)
    requires x >= 0.0 && u > 0.0
    ensures x / u >= 0.0
  {
  }

  /** `p <= floor(x / u)` with `u > 0` gives `p * u <= x`. */
  lemma FloorTimesBelow(p: int, x: real, u: real)
    requires u > 0.0
    requires p <= (x / u).Floor
    ensures p as real * u <= x
  {
    assert p as real <= x / u;
    assert p as real * u <= (x / u) * u;
  }

  // ---------------------------------------------------------------------
  // The previewed total and what checkout sends to processSale

  /** The tax the cart shows: on the amount after the general discount only,
      whenever tax is enabled, whatever the rate's sign. */
  function PreviewTax(shop: Option<ShopInfo>, afterGeneral: real): real {
    if shop.Some? && shop.value.taxEnabled then afterGeneral * (shop.value.taxRate / 100.0) else 0.0
  }

  /** The total the cart shows and checkout compares to 0; nothing clamps it. */
  function PreviewTotal(shop: Option<ShopInfo>, subTotal: real, appliedGeneral: real,
                        appliedLoyalty: real, deliveryFee: real): real {
    var afterGeneral := subTotal - appliedGeneral;
    afterGeneral - appliedLoyalty + PreviewTax(shop, afterGeneral) + deliveryFee
  }

  /** Points sent to `processSale`: the loyalty amount turned back into
      whole points, or 0 when the point value is not positive. */
  function RedeemedPointsFor(shop: Option<ShopInfo>, appliedLoyalty: real): int {
    if shop.Some? && shop.value.poundPerPoint > 0.0
    then (appliedLoyalty / shop.value.poundPerPoint).Floor
    else 0
  }

  /** The discount type is forced to none unless a positive value was entered. */
  function RequestedDiscountType(discountType: DiscountType, discountValue: real): DiscountType {
    if discountValue > 0.0 then discountType else NoDiscount
  }

  function CheckoutRequest(customerId: Option<int>, payment: PaymentDetails, shop: Option<ShopInfo>,
                           appliedLoyalty: real, discountType: DiscountType, discountValue: real,
                           deliveryFee: real): SaleRequest {
    SaleRequest(customerId, payment, RedeemedPointsFor(shop, appliedLoyalty),
                RequestedDiscountType(discountType, discountValue), discountValue, deliveryFee)
  }

  /** The points granted on screen come back unchanged in the request: the
      amount `points * value` divided by the value is exactly `points`. */
  lemma RedeemedPointsRoundTrip(shop: ShopInfo, points: int)
    requires shop.poundPerPoint > 0.0
    ensures RedeemedPointsFor(Some(shop), points as real * shop.poundPerPoint) == points
  {
    assert points as real * shop.poundPerPoint / shop.poundPerPoint == points as real;
  }

  /** A discount entered through the input reaches the commit as the same
      amount, provided the commit's unclamped formula fits in the subtotal. */
  lemma CommittedDiscountMatchesApplied(input: Option<real>, discountType: DiscountType, subTotal: real)
    requires input.Some? && input.value > 0.0 ==> GeneralDiscount(discountType, input.value, subTotal) <= subTotal
    ensures var d := DiscountEffect(input, discountType, subTotal);
      GeneralDiscount(RequestedDiscountType(discountType, d.value), d.value, subTotal) == d.applied
  {
  }

  /** Without redeemed points, with a discount that fits and a non-negative
      tax rate, the previewed total is the total `processSale` records. */
  lemma PreviewMatchesCommitWithoutLoyalty(cart: seq<CartItem>, shop: ShopInfo, customerId: Option<int>,
                                           payment: PaymentDetails, input: Option<real>,
                                           discountType: DiscountType, deliveryFee: real)
    requires shop.taxRate >= 0.0
    requires input.Some? && input.value > 0.0 ==>
      GeneralDiscount(discountType, input.value, SubTotal(cart)) <= SubTotal(cart)
    requires input.Some? && input.value > 0.0 && discountType == Percentage ==> SubTotal(cart) >= 0.0
    requires SubTotal(cart) >= 0.0
    ensures var d := DiscountEffect(input, discountType, SubTotal(cart));
      var req := CheckoutRequest(customerId, payment, Some(shop), 0.0, discountType, d.value, deliveryFee);
      PriceSale(cart, shop, req).totalAmount == PreviewTotal(Some(shop), SubTotal(cart), d.applied, 0.0, deliveryFee)
  {
    var sub := SubTotal(cart);
    DiscountClamp(input, discountType, sub);
    CommittedDiscountMatchesApplied(input, discountType, sub);
    var d := DiscountEffect(input, discountType, sub);
    assert RedeemedPointsFor(Some(shop), 0.0) == 0;
  }

  /** With redeemed points on a taxed shop the two totals part: the preview
      taxes the amount before the loyalty discount, so it shows more than is
      recorded, by exactly the tax on the loyalty discount. */
  lemma PreviewOverstatesTaxOnLoyalty(cart: seq<CartItem>, shop: ShopInfo, customerId: Option<int>,
                                      payment: PaymentDetails, appliedGeneral: real, points: int,
                                      deliveryFee: real)
    requires Taxed(shop) && shop.poundPerPoint > 0.0
    requires appliedGeneral > 0.0
    requires appliedGeneral <= SubTotal(cart) - points as real * shop.poundPerPoint
    ensures var loyalty := points as real * shop.poundPerPoint;
      var req := CheckoutRequest(customerId, payment, Some(shop), loyalty, Fixed, appliedGeneral, deliveryFee);
      PriceSale(cart, shop, req).totalAmount
        == PreviewTotal(Some(shop), SubTotal(cart), appliedGeneral, loyalty, deliveryFee)
           - loyalty * (shop.taxRate / 100.0)
  {
    RedeemedPointsRoundTrip(shop, points);
  }

  /** A worked case: subtotal 100, 10 points at 1 each, 10% tax. The cart
      shows 100; the sale is recorded at 99. */
  lemma PreviewAndCommitDiffer()
    ensures var shop := ShopInfo(true, 1.0, 1.0, true, 10.0);
      var cart := [ScenarioLine(100.0, 1.0)];
      var req := CheckoutRequest(Some(3), PaymentDetails(99.0, 0.0, 0.0), Some(shop), 10.0, NoDiscount, 0.0, 0.0);
      && PreviewTotal(Some(shop), SubTotal(cart), 0.0, 10.0, 0.0) == 100.0
      && PriceSale(cart, shop, req).totalAmount == 99.0
  {
    var shop := ShopInfo(true, 1.0, 1.0, true, 10.0);
    var cart := [ScenarioLine(100.0, 1.0)];
    SingleLineTotals(ScenarioLine(100.0, 1.0));
    assert SubTotal(cart) == 100.0;
    assert RedeemedPointsFor(Some(shop), 10.0) == 10 by {
      assert 10.0 / 1.0 == 10.0;
    }
    var req := CheckoutRequest(Some(3), PaymentDetails(99.0, 0.0, 0.0), Some(shop), 10.0, NoDiscount, 0.0, 0.0);
    assert req.redeemedPoints == 10 && req.discountType == NoDiscount;
    assert PriceSale(cart, shop, req).taxableAmount == 90.0;
  }

  /** The Checkout button: a non-empty cart and an open shift. */
  predicate CheckoutEnabled(cart: seq<CartItem>, activeShift: Option<Shift>) {
    |cart| > 0 && activeShift.Some?
  }

  /** handleCheckout opens the payment dialog only for a positive total. */
  predicate OpensPayment(previewTotal: real) {
    previewTotal > 0.0
  }

  // ---------------------------------------------------------------------
  // Bill splitting, in whole cents

  /** The split prompt accepts a parsed count of 2 to 20 parts. */
  predicate SplitCountAccepted(parsed: Option<int>) {
    parsed.Some? && 1 < parsed.value <= 20
  }

  function SumCents(s: seq<int>): int {
    if |s| == 0 then 0 else s[0] + SumCents(s[1..])
  }

  lemma {:induction false} SumCentsConstant(s: seq<int>, c: int)
    requires forall i :: 0 <= i < |s| ==> s[i] == c
    ensures SumCents(s) == |s| * c
    decreases |s|
  {
    if |s| > 0 {
      SumCentsConstant(s[1..], c);
    }
  }

  /** handleStartSplit's amounts: every part is the total divided by the
      count, rounded down to the cent, and the first part also carries the
      cents left over. The parts add up to the total, and the first exceeds
      the others by fewer cents than there are parts. */
  method SplitAmounts(totalCents: int, splits: int) returns (amounts: array<int>)
    requires splits >= 1
    ensures fresh(amounts)
    ensures amounts.Length == splits
    ensures forall i :: 1 <= i < splits ==> amounts[i] == totalCents / splits
    ensures 0 <= amounts[0] - totalCents / splits < splits
    ensures SumCents(amounts[..]) == totalCents
  {
    var base := totalCents / splits;
    var remainder := totalCents - base * splits;
    amounts := new int[splits](_ => base);
    amounts[0] := amounts[0] + remainder;
    assert amounts[..] == [base + remainder] + amounts[1..];
    SumCentsConstant(amounts[1..], base);
  }

  function AddPayments(a: PaymentDetails, b: PaymentDetails): PaymentDetails {
    PaymentDetails(a.cash + b.cash, a.card + b.card, a.credit + b.credit)
  }

  /** Component-wise total of the payments taken so far. */
  function Paid(parts: seq<PaymentDetails>): PaymentDetails {
    if |parts| == 0 then PaymentDetails(0.0, 0.0, 0.0)
    else AddPayments(Paid(parts[..|parts| - 1]), parts[|parts| - 1])
  }

  /** Split checkout: the parts are paid one at a time and the sale is
      committed once, on the last part, with everything paid. */
  class SplitCheckout {
    var isSplitMode: bool
    var numberOfSplits: int
    var currentSplitIndex: int
    var accumulated: PaymentDetails
    var splitAmounts: seq<int>
    ghost var parts: seq<PaymentDetails>   // the payments taken since the split started

    ghost predicate Valid()
      reads this
    {
      && (isSplitMode ==>
            && 1 <= numberOfSplits
            && |splitAmounts| == numberOfSplits
            && 0 <= currentSplitIndex < numberOfSplits
            && accumulated == Paid(parts)
            && (|parts| == currentSplitIndex
                || (currentSplitIndex == numberOfSplits - 1 && |parts| >= numberOfSplits)))
      && (!isSplitMode ==>
            && numberOfSplits == 0 && currentSplitIndex == 0
            && accumulated == PaymentDetails(0.0, 0.0, 0.0)
            && splitAmounts == [] && parts == [])
    }

    constructor ()
      ensures Valid() && !isSplitMode
    {
      isSplitMode := false;
      numberOfSplits := 0;
      currentSplitIndex := 0;
      accumulated := PaymentDetails(0.0, 0.0, 0.0);
      splitAmounts := [];
      parts := [];
    }

    method Start(splits: int, totalCents: int)
      requires splits >= 1
      modifies this
      ensures Valid() && isSplitMode
      ensures numberOfSplits == splits && currentSplitIndex == 0 && parts == []
      ensures accumulated == PaymentDetails(0.0, 0.0, 0.0)
      ensures SumCents(splitAmounts) == totalCents
      ensures forall i :: 1 <= i < splits ==> splitAmounts[i] == totalCents / splits
    {
      isSplitMode := true;
      numberOfSplits := splits;
      currentSplitIndex := 0;
      accumulated := PaymentDetails(0.0, 0.0, 0.0);
      parts := [];
      var amounts := SplitAmounts(totalCents, splits);
      splitAmounts := amounts[..];
    }

    /** handleCancelSplit (also run when the dialog closes after a sale). */
    method Cancel()
      modifies this
      ensures Valid() && !isSplitMode
    {
      isSplitMode := false;
      numberOfSplits := 0;
      currentSplitIndex := 0;
      accumulated := PaymentDetails(0.0, 0.0, 0.0);
      splitAmounts := [];
      parts := [];
    }

    /** handleConfirmPayment: returns the payment to commit the sale with,
        or `None` while parts remain. Outside split mode the payment is
        committed as it is; in split mode a part is accumulated and, before
        the last part, the index moves on by one. Once the last part is
        reached the index stays there, so that confirm and every further
        one while split mode lasts commits the running sum. */
    method ConfirmPayment(payment: PaymentDetails) returns (commit: Option<PaymentDetails>)
      requires Valid()
      modifies this
      ensures Valid()
      ensures isSplitMode == old(isSplitMode) && numberOfSplits == old(numberOfSplits)
      ensures splitAmounts == old(splitAmounts)
      ensures !isSplitMode ==> commit == Some(payment) && unchanged(this)
      ensures isSplitMode ==> parts == old(parts) + [payment] && accumulated == Paid(parts)
      ensures isSplitMode ==> (commit.Some? <==> |parts| >= numberOfSplits)
      ensures isSplitMode && commit.Some? ==> commit.value == Paid(parts)
      ensures isSplitMode && commit.None? ==> currentSplitIndex == old(currentSplitIndex) + 1
    {
      if isSplitMode {
        var newAccumulated := AddPayments(accumulated, payment);
        accumulated := newAccumulated;
        parts := parts + [payment];
        assert parts[..|parts| - 1] == old(parts);
        if currentSplitIndex != numberOfSplits - 1 {
          currentSplitIndex := currentSplitIndex + 1;
          commit := None;
        } else {
          commit := Some(newAccumulated);
        }
      } else {
        commit := Some(payment);
      }
    }
  }

  // ---------------------------------------------------------------------
  // The addon picker (AddonsModal.handleToggleAddon)

  predicate Resolves(catalog: seq<Addon>, id: int) {
    exists a :: a in catalog && a.id == id
  }

  /** Ids of the group's addons that still exist. */
  function GroupAddonIds(group: AddonGroup, catalog: seq<Addon>): set<int> {
    set id | id in group.addonIds && Resolves(catalog, id)
  }

  predicate HasAddonId(selected: seq<Addon>, id: int) {
    exists a :: a in selected && a.id == id
  }

  /** `selected.filter(a => !ids.includes(a.id))`. */
  function WithoutAddonIds(selected: seq<Addon>, ids: set<int>): (r: seq<Addon>)
    ensures forall a :: a in r <==> a in selected && a.id !in ids
  {
    Filter(selected, (a: Addon) => a.id !in ids)
  }

  function ToggleAddon(selected: seq<Addon>, addon: Addon, group: AddonGroup, catalog: seq<Addon>): seq<Addon> {
    match group.selectionType
    case Single => WithoutAddonIds(selected, GroupAddonIds(group, catalog)) + [addon]
    case Multiple =>
      if HasAddonId(selected, addon.id) then WithoutAddonIds(selected, {addon.id})
      else selected + [addon]
  }

  /** In a single-choice group the chosen addon is the only selected one
      from that group; addons outside the group are kept as they were. */
  lemma SingleChoiceKeepsOne(selected: seq<Addon>, addon: Addon, group: AddonGroup, catalog: seq<Addon>)
    requires group.selectionType == Single
    ensures var r := ToggleAddon(selected, addon, group, catalog);
      var ids := GroupAddonIds(group, catalog);
      && addon in r
      && (forall a :: a in r && a.id in ids ==> a == addon)
      && (forall a: Addon :: a.id !in ids ==> (a in r <==> a in selected || a == addon))
  {
  }

  /** In a multiple-choice group the addon's id flips between selected and
      not selected, and every other addon stays as it was. */
  lemma MultipleChoiceToggles(selected: seq<Addon>, addon: Addon, group: AddonGroup, catalog: seq<Addon>)
    requires group.selectionType == Multiple
    ensures var r := ToggleAddon(selected, addon, group, catalog);
      && (HasAddonId(r, addon.id) <==> !HasAddonId(selected, addon.id))
      && (forall a: Addon :: a.id != addon.id ==> (a in r <==> a in selected))
  {
    var r := ToggleAddon(selected, addon, group, catalog);
    if !HasAddonId(selected, addon.id) {
      assert addon in r;
    }
  }
}
