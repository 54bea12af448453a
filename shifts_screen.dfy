/** The shifts and expenses screen: the cash-count checks of the start and
    end dialogs, the history of closed shifts, the active shift's expense
    list and the expense form's check. */
module ShiftsScreen {
  import opened Types
  import opened Sums
  import opened Text
  import opened Seqs
  import Store

  /** The start and end dialogs accept a counted amount that parses to a
      number of at least 0; `None` stands for NaN. */
  predicate CashCountAccepted(parsed: Option<real>) {
    parsed.Some? && parsed.value >= 0.0
  }

  predicate IsClosed(s: Shift) {
    s.status == Closed
  }

  function StartKey(s: Shift): real {
    s.startTime as real
  }

  /** sortedShifts: the closed shifts, the latest start first. */
  function ShiftHistory(shifts: seq<Shift>): seq<Shift> {
    SortDesc(Filter(shifts, IsClosed), StartKey)
  }

  /** The history lists every closed shift and nothing else, each as often
      as it is recorded, the latest start first; the active shift is never
      listed. */
  lemma ShiftHistoryExact(shifts: seq<Shift>, s: Shift)
    ensures var h := ShiftHistory(shifts);
      && SortedDesc(h, StartKey)
      && (s in h <==> s in shifts && s.status == Closed)
      && multiset(h)[s] == if s.status == Closed then multiset(shifts)[s] else 0
  {
    FilterMultiset(shifts, IsClosed, s);
  }

  function InShift(shiftId: int): Expense -> bool {
    (e: Expense) => e.shiftId == shiftId
  }

  /** shiftExpenses: nothing without an active shift, else that shift's. */
  function ShiftExpenseList(expenses: seq<Expense>, activeShift: Option<Shift>): seq<Expense> {
    if activeShift.None? then [] else Filter(expenses, InShift(activeShift.value.id))
  }

  function ExpenseAmount(e: Expense): real { e.amount }

  /** The listed expenses are exactly the active shift's, and they add up to
      the expenses closing that shift subtracts from the expected cash. */
  lemma ShiftExpenseListExact(expenses: seq<Expense>, activeShift: Option<Shift>, e: Expense)
    ensures activeShift.None? ==> ShiftExpenseList(expenses, activeShift) == []
    ensures activeShift.Some? ==>
      (e in ShiftExpenseList(expenses, activeShift) <==> e in expenses && e.shiftId == activeShift.value.id)
    ensures activeShift.Some? ==>
      Sum(ShiftExpenseList(expenses, activeShift), ExpenseAmount) == Sum(expenses, Store.ExpenseOf(activeShift.value.id))
  {
    if activeShift.Some? {
      FilteredExpenseTotal(expenses, activeShift.value.id);
    }
  }

  lemma {:induction false} FilteredExpenseTotal(expenses: seq<Expense>, shiftId: int)
    ensures Sum(Filter(expenses, InShift(shiftId)), ExpenseAmount) == Sum(expenses, Store.ExpenseOf(shiftId))
    decreases |expenses|
  {
    if |expenses| > 0 {
      var init := expenses[..|expenses| - 1];
      var last := expenses[|expenses| - 1];
      FilteredExpenseTotal(init, shiftId);
      if last.shiftId == shiftId {
        SumSnoc(Filter(init, InShift(shiftId)), last, ExpenseAmount);
      }
    }
  }

  /** The expense form needs a non-blank description and an amount above 0
      (`None` is the empty field). */
  predicate ExpenseAccepted(description: string, amount: Option<real>) {
    !IsBlank(description) && amount.Some? && amount.value > 0.0
  }

  /** Every recorded expense went through the form, so each is above 0: the
      shift's expenses add up to at least 0, and closing the shift never
      expects more cash in the drawer than the starting cash plus the cash
      sales. */
  lemma AcceptedExpensesLowerExpectedCash(expenses: seq<Expense>, s: Shift, endTime: int, endingCash: real,
                                          cash: real, card: real, total: real)
    requires forall i :: 0 <= i < |expenses| ==> ExpenseAccepted(expenses[i].description, Some(expenses[i].amount))
    ensures Sum(expenses, Store.ExpenseOf(s.id)) >= 0.0
    ensures Store.CloseShift(s, endTime, endingCash, cash, card, total, Sum(expenses, Store.ExpenseOf(s.id))).expectedCash
            <= s.startingCash + cash
  {
    SumNonNegative(expenses, Store.ExpenseOf(s.id));
  }
}
