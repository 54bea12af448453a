/** Settling a bill at the payment dialog: what was tendered, when the bill
    may be confirmed, the change given back, and the rest put on credit. */
module PaymentModal {
  import opened Types

  /** The dialog's two inputs, already parsed; `None` is a blank or
      unparseable field. */
  datatype Tender = Tender(cash: Option<real>, card: Option<real>, showSuccess: bool)

  /** `parseFloat(x) || 0`: blank, NaN and 0 all count as 0. */
  function Amount(field: Option<real>): real {
    field.GetOr(0.0)
  }

  function PaidAmount(t: Tender): real {
    Amount(t.cash) + Amount(t.card)
  }

  function Remaining(total: real, t: Tender): real {
    total - PaidAmount(t)
  }

  /** Confirm is enabled once the shortfall is at most a thousandth. */
  predicate CanConfirm(total: real, t: Tender) {
    Remaining(total, t) <= 0.001
  }

  /** Full payment: the cash is reduced by any overpayment (the change), and
      nothing goes on credit. */
  function ConfirmPayment(total: real, t: Tender): PaymentDetails {
    var change := PaidAmount(t) - total;
    var finalCash := if change > 0.0 then Amount(t.cash) - change else Amount(t.cash);
    PaymentDetails(finalCash, Amount(t.card), 0.0)
  }

  /** The credit button: cash and card as entered, the shortfall on credit. */
  function CreditPayment(total: real, t: Tender): PaymentDetails {
    PaymentDetails(Amount(t.cash), Amount(t.card), Remaining(total, t))
  }

  /** The credit button needs a customer and something left to pay. */
  predicate CreditEnabled(total: real, t: Tender, customerId: Option<int>) {
    customerId.Some? && Remaining(total, t) > 0.0
  }

  /** handleClose: both inputs blank and the success view hidden. */
  function Closed(t: Tender): (r: Tender)
    ensures Amount(r.cash) == 0.0 && Amount(r.card) == 0.0 && !r.showSuccess
  {
    Tender(None, None, false)
  }

  /** A confirmed payment records no credit and never more than the bill;
      an overpayment is trimmed to the bill exactly, and an accepted
      shortfall is at most the tolerance. The card amount is kept as entered. */
  lemma ConfirmSettles(total: real, t: Tender)
    requires CanConfirm(total, t)
    ensures var p := ConfirmPayment(total, t);
      && p.credit == 0.0
      && p.card == Amount(t.card)
      && total - 0.001 <= p.cash + p.card <= total
      && (PaidAmount(t) > total ==> p.cash + p.card == total)
      && (PaidAmount(t) <= total ==> p.cash == Amount(t.cash))
  {
  }

  /** Paying on credit accounts for the whole bill: cash, card and credit
      add up to the total, and the credit is positive whenever the button
      is enabled. */
  lemma CreditCoversBill(total: real, t: Tender, customerId: Option<int>)
    ensures var p := CreditPayment(total, t);
      && p.cash + p.card + p.credit == total
      && p.cash == Amount(t.cash) && p.card == Amount(t.card)
      && (CreditEnabled(total, t, customerId) ==> p.credit > 0.0)
  {
  }

  /** The change is taken from the cash alone: a card overpayment records a
      negative cash amount (here, 100 by card on a bill of 50 records -50
      cash). */
  lemma CardOverpaymentRecordsNegativeCash()
    ensures ConfirmPayment(50.0, Tender(None, Some(100.0), false)) == PaymentDetails(-50.0, 100.0, 0.0)
  {
  }
}
