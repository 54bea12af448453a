/** The customers and suppliers screens: the balance label, the search, the
    contact dialogs and the payment dialog both screens share. */
module Parties {
  import opened Types
  import opened Text
  import opened Seqs
  import Store

  /** formatBalance: a negative balance is a debt shown by its size, a
      positive one a credit, zero is shown as 0.00. */
  datatype BalanceLabel = Debtor(amount: real) | Creditor(amount: real) | Settled

  function FormatBalance(balance: real): (r: BalanceLabel)
    ensures r.Debtor? <==> balance < 0.0
    ensures r.Creditor? <==> balance > 0.0
    ensures r.Settled? <==> balance == 0.0
    ensures !r.Settled? ==> r.amount > 0.0 && (r.amount == balance || r.amount == -balance)
  {
    if balance < 0.0 then Debtor(-balance) else if balance > 0.0 then Creditor(balance) else Settled
  }

  /** The label gives the balance back: a debt is the negated amount. */
  lemma FormatBalanceRoundTrip(balance: real)
    ensures var r := FormatBalance(balance);
      balance == match r
        case Debtor(a) => -a
        case Creditor(a) => a
        case Settled => 0.0
  {
  }

  /** The search of both screens: the name contains the term ignoring case,
      or the phone contains the lower-cased term. */
  predicate ContactMatches(name: string, phone: string, term: string) {
    ContainsIgnoringCase(name, term) || Contains(phone, ToLower(term))
  }

  function CustomerMatches(term: string): Customer -> bool {
    (c: Customer) => ContactMatches(c.name, c.phone, term)
  }

  function SupplierMatches(term: string): Supplier -> bool {
    (s: Supplier) => ContactMatches(s.name, s.phone, term)
  }

  function FilteredCustomers(customers: seq<Customer>, term: string): seq<Customer> {
    if IsBlank(term) then customers else Filter(customers, CustomerMatches(term))
  }

  function FilteredSuppliers(suppliers: seq<Supplier>, term: string): seq<Supplier> {
    if IsBlank(term) then suppliers else Filter(suppliers, SupplierMatches(term))
  }

  /** A blank term keeps the whole list in its order; otherwise the list
      keeps exactly the matching entries, each as often as it is stored. */
  lemma FilteredContactsExact(customers: seq<Customer>, suppliers: seq<Supplier>, term: string, c: Customer, s: Supplier)
    ensures IsBlank(term) ==> FilteredCustomers(customers, term) == customers
    ensures IsBlank(term) ==> FilteredSuppliers(suppliers, term) == suppliers
    ensures !IsBlank(term) ==>
      && (c in FilteredCustomers(customers, term) <==> c in customers && ContactMatches(c.name, c.phone, term))
      && (s in FilteredSuppliers(suppliers, term) <==> s in suppliers && ContactMatches(s.name, s.phone, term))
      && multiset(FilteredCustomers(customers, term))[c] ==
           (if ContactMatches(c.name, c.phone, term) then multiset(customers)[c] else 0)
      && multiset(FilteredSuppliers(suppliers, term))[s] ==
           (if ContactMatches(s.name, s.phone, term) then multiset(suppliers)[s] else 0)
  {
    if !IsBlank(term) {
      FilterMultiset(customers, CustomerMatches(term), c);
      FilterMultiset(suppliers, SupplierMatches(term), s);
    }
  }

  /** The phone is matched against the lower-cased term, the name ignoring
      case: "AB" finds a customer named "Ab", but not one whose phone is
      "AB". */
  lemma PhoneMatchLowersTermOnly()
    ensures ContactMatches("Ab", "1", "AB")
    ensures !ContactMatches("x", "AB", "AB")
  {
    assert ToLower("Ab") == "ab";
    assert ToLower("AB") == "ab";
    assert IsPrefix("ab", "ab");
    assert ToLower("x") == "x";
    assert !Contains("x", "ab") by {
      assert !IsPrefix("ab", "x");
      assert "x"[1..] == "";
    }
    assert !Contains("AB", "ab") by {
      assert !IsPrefix("ab", "AB");
      assert "AB"[1..] == "B";
      assert !IsPrefix("ab", "B");
      assert "B"[1..] == "";
    }
  }

  /** The customer and supplier dialogs hold the same three fields. */
  datatype ContactForm = ContactForm(name: string, phone: string, address: string)

  function OpenCustomerForm(editing: Option<Customer>): ContactForm {
    if editing.Some? then ContactForm(editing.value.name, editing.value.phone, editing.value.address)
    else ContactForm("", "", "")
  }

  function OpenSupplierForm(editing: Option<Supplier>): ContactForm {
    if editing.Some? then ContactForm(editing.value.name, editing.value.phone, editing.value.address)
    else ContactForm("", "", "")
  }

  predicate ContactComplete(form: ContactForm) {
    !IsBlank(form.name) && !IsBlank(form.phone)
  }

  datatype CustomerSave = CustomerRefused | AddCustomer(form: ContactForm) | UpdateCustomer(customer: Customer)

  datatype SupplierSave = SupplierRefused | AddSupplier(form: ContactForm) | UpdateSupplier(supplier: Supplier)

  /** CustomerFormModal.handleSubmit: an edit carries the customer's id,
      balance and points over unchanged. */
  function SubmitCustomer(form: ContactForm, editing: Option<Customer>): CustomerSave {
    if !ContactComplete(form) then CustomerRefused
    else if editing.Some? then
      UpdateCustomer(editing.value.(name := form.name, phone := form.phone, address := form.address))
    else AddCustomer(form)
  }

  /** SupplierFormModal.handleSubmit: an edit carries the supplier's id and
      balance over unchanged. */
  function SubmitSupplier(form: ContactForm, editing: Option<Supplier>): SupplierSave {
    if !ContactComplete(form) then SupplierRefused
    else if editing.Some? then
      UpdateSupplier(editing.value.(name := form.name, phone := form.phone, address := form.address))
    else AddSupplier(form)
  }

  /** Both dialogs refuse exactly a blank name or phone; an edit changes the
      three contact fields and keeps the id, the balance and (for a
      customer) the points, so editing a contact never settles a debt; and
      saving an edit dialog untouched writes the record back as it was. */
  lemma ContactSubmitRules(form: ContactForm, customer: Option<Customer>, supplier: Option<Supplier>)
    ensures SubmitCustomer(form, customer) == CustomerRefused <==> IsBlank(form.name) || IsBlank(form.phone)
    ensures SubmitSupplier(form, supplier) == SupplierRefused <==> IsBlank(form.name) || IsBlank(form.phone)
    ensures var r := SubmitCustomer(form, customer);
      r.UpdateCustomer? ==>
        && r.customer.id == customer.value.id
        && r.customer.balance == customer.value.balance
        && r.customer.loyaltyPoints == customer.value.loyaltyPoints
        && r.customer.name == form.name && r.customer.phone == form.phone && r.customer.address == form.address
    ensures var r := SubmitSupplier(form, supplier);
      r.UpdateSupplier? ==>
        && r.supplier.id == supplier.value.id
        && r.supplier.balance == supplier.value.balance
        && r.supplier.name == form.name && r.supplier.phone == form.phone && r.supplier.address == form.address
    ensures customer.Some? && ContactComplete(OpenCustomerForm(customer)) ==>
      SubmitCustomer(OpenCustomerForm(customer), customer) == UpdateCustomer(customer.value)
    ensures supplier.Some? && ContactComplete(OpenSupplierForm(supplier)) ==>
      SubmitSupplier(OpenSupplierForm(supplier), supplier) == UpdateSupplier(supplier.value)
  {
  }

  /** The payment dialog; `None` is an empty choice or an empty amount. */
  datatype PaymentForm = PaymentForm(entityId: Option<int>, amount: Option<real>, date: int)

  /** `entities`: the customers for a customer payment, else the suppliers. */
  function Entities(paymentType: PaymentType, customers: seq<Customer>, suppliers: seq<Supplier>): (ids: seq<int>)
    ensures paymentType == CustomerPayment ==>
      |ids| == |customers| && forall i :: 0 <= i < |ids| ==> ids[i] == customers[i].id
    ensures paymentType == SupplierPayment ==>
      |ids| == |suppliers| && forall i :: 0 <= i < |ids| ==> ids[i] == suppliers[i].id
  {
    if paymentType == CustomerPayment then seq(|customers|, i requires 0 <= i < |customers| => customers[i].id)
    else seq(|suppliers|, i requires 0 <= i < |suppliers| => suppliers[i].id)
  }

  /** resetForm: the first selectable entity, no amount, today. */
  function OpenPaymentForm(paymentType: PaymentType, customers: seq<Customer>, suppliers: seq<Supplier>, today: int): PaymentForm {
    var ids := Entities(paymentType, customers, suppliers);
    PaymentForm(if |ids| > 0 then Some(ids[0]) else None, None, today)
  }

  /** A freshly opened dialog is refused until an amount is entered, and
      then only if there is nobody of the right kind to pay. */
  lemma OpenPaymentFormRules(paymentType: PaymentType, customers: seq<Customer>, suppliers: seq<Supplier>, today: int, amount: real)
    requires amount > 0.0
    ensures var f := OpenPaymentForm(paymentType, customers, suppliers, today);
      && f.amount == None && f.date == today
      && SubmitPayment(f, paymentType).None?
      && (SubmitPayment(f.(amount := Some(amount)), paymentType).Some? <==>
            if paymentType == CustomerPayment then |customers| > 0 else |suppliers| > 0)
    ensures paymentType == CustomerPayment && |customers| > 0 ==>
      OpenPaymentForm(paymentType, customers, suppliers, today).entityId == Some(customers[0].id)
    ensures paymentType == SupplierPayment && |suppliers| > 0 ==>
      OpenPaymentForm(paymentType, customers, suppliers, today).entityId == Some(suppliers[0].id)
  {
  }

  /** handleSubmit: the payment handed to `onSave` (the store assigns its
      id, so the `id` here is 0), or `None` when the dialog refuses. */
  function SubmitPayment(form: PaymentForm, paymentType: PaymentType): (r: Option<Payment>)
    ensures r.None? <==> form.entityId.None? || form.amount.None? || form.amount.value <= 0.0
    ensures r.Some? ==>
      r.value == Payment(0, form.date, paymentType, form.entityId.value, form.amount.value) && r.value.amount > 0.0
  {
    if form.entityId.None? || form.amount.None? || form.amount.value <= 0.0 then None
    else Some(Payment(0, form.date, paymentType, form.entityId.value, form.amount.value))
  }

  /** Recording an accepted payment strictly raises the chosen party's
      balance, so a negative balance, which the label shows as a debt, moves
      toward zero; no other party is touched. */
  lemma PaymentRaisesBalance(customers: map<int, Customer>, suppliers: map<int, Supplier>, form: PaymentForm,
                             paymentType: PaymentType, other: int)
    requires SubmitPayment(form, paymentType).Some?
    ensures var p := SubmitPayment(form, paymentType).value;
      && (p.entityId in customers ==>
            Store.AdjustCustomer(customers, p.entityId, p.amount)[p.entityId].balance > customers[p.entityId].balance)
      && (p.entityId in suppliers ==>
            Store.AdjustSupplier(suppliers, p.entityId, p.amount)[p.entityId].balance > suppliers[p.entityId].balance)
      && (other != p.entityId && other in customers ==>
            Store.AdjustCustomer(customers, p.entityId, p.amount)[other] == customers[other])
      && (other != p.entityId && other in suppliers ==>
            Store.AdjustSupplier(suppliers, p.entityId, p.amount)[other] == suppliers[other])
  {
  }
}
