/** How a sale is priced when it is committed (`processSale`, the pricing
    part): subtotal, cost, general discount, loyalty discount, tax, total
    and the loyalty points the sale earns. */
module Pricing {
  import opened Types
  import opened Sums

  function AddonPrice(a: Addon): real { a.price }

  function AddonsPrice(addons: seq<Addon>): real {
    Sum(addons, AddonPrice)
  }

  /** A line's price: base price plus its addons, times its quantity. */
  function LineTotal(item: CartItem): real {
    (item.price + AddonsPrice(item.selectedAddons)) * item.quantity
  }

  /** A line's cost; addons carry no cost. */
  function LineCost(item: CartItem): real {
    item.cost * item.quantity
  }

  function SubTotal(cart: seq<CartItem>): real {
    Sum(cart, LineTotal)
  }

  function TotalCost(cart: seq<CartItem>): real {
    Sum(cart, LineCost)
  }

  /** The discount amount `processSale` derives from the entered value;
      unlike the cart screen it does not clamp it to the subtotal. */
  function GeneralDiscount(discountType: DiscountType, discountValue: real, subTotal: real): real {
    match discountType
    case Percentage => subTotal * (discountValue / 100.0)
    case Fixed => discountValue
    case NoDiscount => 0.0
  }

  predicate Taxed(shop: ShopInfo) {
    shop.taxEnabled && shop.taxRate > 0.0
  }

  function TaxOn(shop: ShopInfo, taxable: real): real {
    if Taxed(shop) then taxable * (shop.taxRate / 100.0) else 0.0
  }

  /** Points a sale earns: nothing unless loyalty is on and a customer id
      is attached (0 counts as no customer). */
  function PointsEarned(shop: ShopInfo, customerId: Option<int>, totalAfterGeneralDiscount: real): int {
    if shop.loyaltyEnabled && Attached(customerId)
    then (totalAfterGeneralDiscount * shop.pointsPerPound).Floor
    else 0
  }

  /** What the payment screen hands to `processSale`. */
  datatype SaleRequest = SaleRequest(
    customerId: Option<int>,
    paymentDetails: PaymentDetails,
    redeemedPoints: int,
    discountType: DiscountType,
    discountValue: real,
    deliveryFee: real
  )

  datatype Priced = Priced(
    subTotal: real,
    totalCost: real,
    generalDiscount: real,
    totalAfterGeneralDiscount: real,
    discountFromPoints: real,
    taxableAmount: real,
    taxAmount: real,
    totalAmount: real,
    pointsEarned: int
  )

  function PriceSale(cart: seq<CartItem>, shop: ShopInfo, req: SaleRequest): Priced {
    var subTotal := SubTotal(cart);
    var general := GeneralDiscount(req.discountType, req.discountValue, subTotal);
    var afterGeneral := subTotal - general;
    var fromPoints := req.redeemedPoints as real * shop.poundPerPoint;
    var taxable := Max(0.0, afterGeneral - fromPoints);
    var tax := TaxOn(shop, taxable);
    Priced(subTotal, TotalCost(cart), general, afterGeneral, fromPoints, taxable, tax,
           taxable + tax + req.deliveryFee,
           PointsEarned(shop, req.customerId, afterGeneral))
  }

  /** The taxed base is never negative; it is zero exactly when the two
      discounts together cover the subtotal, and it never exceeds what the
      general discount leaves when the points are worth something. */
  lemma TaxableIsWhatDiscountsLeave(cart: seq<CartItem>, shop: ShopInfo, req: SaleRequest)
    ensures var p := PriceSale(cart, shop, req);
      && p.taxableAmount >= 0.0
      && (p.taxableAmount == 0.0 <==> p.subTotal <= p.generalDiscount + p.discountFromPoints)
      && (p.taxableAmount > 0.0 ==> p.taxableAmount + p.generalDiscount + p.discountFromPoints == p.subTotal)
      && (p.discountFromPoints >= 0.0 ==> p.taxableAmount <= Max(0.0, p.totalAfterGeneralDiscount))
  {
  }

  /** With no discount, no points redeemed and no tax, the customer pays
      the subtotal plus the delivery fee. */
  lemma PlainSaleTotal(cart: seq<CartItem>, shop: ShopInfo, req: SaleRequest)
    requires req.discountType == NoDiscount && req.redeemedPoints == 0 && !Taxed(shop)
    requires SubTotal(cart) >= 0.0
    ensures PriceSale(cart, shop, req).totalAmount == SubTotal(cart) + req.deliveryFee
    ensures PriceSale(cart, shop, req).taxAmount == 0.0
  {
  }

  /** With tax on, the total is the taxed base grown by the rate, plus the
      fee; the tax is the rate's share of the base. */
  lemma TaxGrowsTheBase(cart: seq<CartItem>, shop: ShopInfo, req: SaleRequest)
    requires Taxed(shop)
    ensures var p := PriceSale(cart, shop, req);
      && p.totalAmount == p.taxableAmount * (1.0 + shop.taxRate / 100.0) + req.deliveryFee
      && p.taxAmount * 100.0 == p.taxableAmount * shop.taxRate
  {
  }

  /** Redeeming more points (worth something each) never raises the taxed
      base, the tax or the total, and does not change the points earned. */
  lemma MoreRedemptionNeverRaisesTotal(cart: seq<CartItem>, shop: ShopInfo, req: SaleRequest, more: int)
    requires req.redeemedPoints <= more && shop.poundPerPoint >= 0.0
    ensures var p := PriceSale(cart, shop, req);
      var q := PriceSale(cart, shop, req.(redeemedPoints := more));
      && q.taxableAmount <= p.taxableAmount
      && q.taxAmount <= p.taxAmount
      && q.totalAmount <= p.totalAmount
      && q.pointsEarned == p.pointsEarned
  {
    var p := PriceSale(cart, shop, req);
    var q := PriceSale(cart, shop, req.(redeemedPoints := more));
    MulMonotone(req.redeemedPoints as real, more as real, shop.poundPerPoint);
    TaxMonotone(shop, q.taxableAmount, p.taxableAmount);
  }

  /** A larger fixed discount never raises the total, and with a
      non-negative earning rate never raises the points earned. */
  lemma LargerFixedDiscountNeverRaisesTotal(cart: seq<CartItem>, shop: ShopInfo, req: SaleRequest, larger: real)
    requires req.discountType == Fixed && req.discountValue <= larger
    ensures var p := PriceSale(cart, shop, req);
      var q := PriceSale(cart, shop, req.(discountValue := larger));
      && q.taxableAmount <= p.taxableAmount
      && q.totalAmount <= p.totalAmount
      && (shop.pointsPerPound >= 0.0 ==> q.pointsEarned <= p.pointsEarned)
  {
    var p := PriceSale(cart, shop, req);
    var q := PriceSale(cart, shop, req.(discountValue := larger));
    assert q.subTotal == p.subTotal;
    assert q.totalAfterGeneralDiscount == p.subTotal - larger;
    assert p.totalAfterGeneralDiscount == p.subTotal - req.discountValue;
    assert q.discountFromPoints == p.discountFromPoints;
    assert q.taxableAmount <= p.taxableAmount;
    TaxMonotone(shop, q.taxableAmount, p.taxableAmount);
    if shop.pointsPerPound >= 0.0 {
      PointsEarnedMonotone(shop, req.customerId, q.totalAfterGeneralDiscount, p.totalAfterGeneralDiscount);
    }
  }

  lemma PointsEarnedMonotone(shop: ShopInfo, customerId: Option<int>, a: real, b: real)
    requires a <= b && shop.pointsPerPound >= 0.0
    ensures PointsEarned(shop, customerId, a) <= PointsEarned(shop, customerId, b)
  {
    if shop.loyaltyEnabled && Attached(customerId) {
      MulMonotone(a, b, shop.pointsPerPound);
      FloorMonotone(a * shop.pointsPerPound, b * shop.pointsPerPound);
    }
  }

  lemma FloorMonotone(a: real, b: real)
    requires a <= b
    ensures a.Floor <= b.Floor
  {
  }

  lemma MulMonotone(a: real, b: real, c: real)
    requires a <= b && c >= 0.0
    ensures a * c <= b * c
  {
    MulNonNegative(b - a, c);
  }

  lemma TaxMonotone(shop: ShopInfo, a: real, b: real)
    requires a <= b
    ensures TaxOn(shop, a) <= TaxOn(shop, b)
  {
    if Taxed(shop) {
      MulMonotone(a, b, shop.taxRate / 100.0);
    }
  }

  /** Tax is never negative, so the total never falls below the delivery fee. */
  lemma TotalCoversDeliveryFee(cart: seq<CartItem>, shop: ShopInfo, req: SaleRequest)
    ensures PriceSale(cart, shop, req).taxAmount >= 0.0
    ensures PriceSale(cart, shop, req).totalAmount >= req.deliveryFee
  {
    var p := PriceSale(cart, shop, req);
    if Taxed(shop) {
      assert p.taxableAmount * (shop.taxRate / 100.0) >= 0.0 by {
        MulNonNegative(p.taxableAmount, shop.taxRate / 100.0);
      }
    }
  }

  lemma MulNonNegative(a: real, b: real)
    requires a >= 0.0 && b >= 0.0
    ensures a * b >= 0.0
  {
  }

  /** The subtotal grows by exactly the appended line's total. */
  lemma SubTotalSnoc(cart: seq<CartItem>, item: CartItem)
    ensures SubTotal(cart + [item]) == SubTotal(cart) + LineTotal(item)
    ensures TotalCost(cart + [item]) == TotalCost(cart) + LineCost(item)
  {
    SumSnoc(cart, item, LineTotal);
    SumSnoc(cart, item, LineCost);
  }

  /** Cost depends only on each line's cost and quantity: price and addons
      never enter it. */
  lemma {:induction false} TotalCostIgnoresPrices(a: seq<CartItem>, b: seq<CartItem>)
    requires |a| == |b|
    requires forall i :: 0 <= i < |a| ==> a[i].cost == b[i].cost && a[i].quantity == b[i].quantity
    ensures TotalCost(a) == TotalCost(b)
    decreases |a|
  {
    if |a| > 0 {
      TotalCostIgnoresPrices(a[..|a| - 1], b[..|b| - 1]);
    }
  }

  function PlainLineTotal(item: CartItem): real {
    item.price * item.quantity
  }

  /** Without addons the subtotal is the plain sum of price times quantity. */
  lemma SubTotalWithoutAddons(cart: seq<CartItem>)
    requires forall i :: 0 <= i < |cart| ==> cart[i].selectedAddons == []
    ensures SubTotal(cart) == Sum(cart, PlainLineTotal)
  {
    forall i | 0 <= i < |cart|
      ensures LineTotal(cart[i]) == PlainLineTotal(cart[i])
    {
      assert AddonsPrice(cart[i].selectedAddons) == 0.0;
    }
    SumCongruent(cart, LineTotal, PlainLineTotal);
  }

  /** A sale earns points only with loyalty on and a customer attached. */
  lemma PointsNeedLoyaltyAndCustomer(cart: seq<CartItem>, shop: ShopInfo, req: SaleRequest)
    ensures PriceSale(cart, shop, req).pointsEarned != 0 ==> shop.loyaltyEnabled && Attached(req.customerId)
  {
  }

  /** When the general discount does not exceed the subtotal, the points
      earned are `floor((subTotal - discount) * pointsPerPound)` and never
      negative. */
  lemma PointsEarnedNonNegative(cart: seq<CartItem>, shop: ShopInfo, req: SaleRequest)
    requires shop.pointsPerPound >= 0.0
    requires GeneralDiscount(req.discountType, req.discountValue, SubTotal(cart)) <= SubTotal(cart)
    ensures PriceSale(cart, shop, req).pointsEarned >= 0
  {
    var p := PriceSale(cart, shop, req);
    MulNonNegative(p.totalAfterGeneralDiscount, shop.pointsPerPound);
  }

  function ScenarioLine(price: real, quantity: real): CartItem {
    CartItem("line", 1, "item", price, price / 2.0, quantity, ProductItem, [], "")
  }

  lemma SingleLineTotals(item: CartItem)
    ensures SubTotal([item]) == LineTotal(item)
    ensures TotalCost([item]) == LineCost(item)
  {
    SubTotalSnoc([], item);
    assert [] + [item] == [item];
  }

  /** A worked sale: two units at 50, 10% off, 15% tax, no fee: 103.5. */
  lemma PercentageDiscountThenTax()
    ensures var shop := ShopInfo(false, 0.0, 1.0, true, 15.0);
      var req := SaleRequest(None, PaymentDetails(103.5, 0.0, 0.0), 0, Percentage, 10.0, 0.0);
      var p := PriceSale([ScenarioLine(50.0, 2.0)], shop, req);
      p.subTotal == 100.0 && p.generalDiscount == 10.0 && p.taxAmount == 13.5 && p.totalAmount == 103.5
  {
    SingleLineTotals(ScenarioLine(50.0, 2.0));
  }

  /** The commit path does not clamp the general discount: a fixed discount
      of 15 on a subtotal of 10 for a loyalty customer earns -5 points
      (at one point per unit), which `processSale` then adds to the
      customer's points. */
  lemma OversizedFixedDiscountEarnsNegativePoints()
    ensures var shop := ShopInfo(true, 1.0, 1.0, false, 0.0);
      var req := SaleRequest(Some(7), PaymentDetails(10.0, 0.0, 0.0), 0, Fixed, 15.0, 10.0);
      var p := PriceSale([ScenarioLine(10.0, 1.0)], shop, req);
      p.pointsEarned == -5 && p.totalAmount == 10.0
  {
    SingleLineTotals(ScenarioLine(10.0, 1.0));
  }
}
