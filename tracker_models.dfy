/** Tenders won by companies, and the expenses booked against them. A
    tender's total expenses is the sum of its expense amounts and its profit
    is its value minus that sum. Rows are in-memory records; a tender's
    expenses are the rows of the expense table that point at it. */
module TrackerModels {
  import opened Wrappers
  import opened Sums
  import opened Dates

  datatype Company = Company(id: int, name: string)

  datatype Tender = Tender(
    id: int,
    tenderNo: string,
    company: Company,
    clientName: string,
    totalValue: real,
    paymentStatus: string,
    startDate: Option<CalendarDate>,
    endDate: Option<CalendarDate>)

  datatype Expense = Expense(
    id: int,
    tenderId: int,
    category: string,
    description: Option<string>,
    amount: real,
    date: CalendarDate)

  /** A payment row; the payment model itself is not part of this model, only
      the two columns the views aggregate. */
  datatype Payment = Payment(tenderId: int, amount: real)

  /** The three payment states a tender can be in. */
  const Pending := "Pending"
  const PartiallyPaid := "Partially Paid"
  const Paid := "Paid"

  function OfCompany(c: Company): Tender -> bool
  {
    (t: Tender) => t.company.id == c.id
  }

  /** The tenders of a company (its `tenders` related manager). */
  function TendersOf(c: Company, tenders: seq<Tender>): (r: seq<Tender>)
    ensures forall t :: t in r <==> t in tenders && t.company.id == c.id
  {
    FilterMembers(tenders, OfCompany(c));
    Filter(tenders, OfCompany(c))
  }

  function ExpenseAmount(e: Expense): real { e.amount }

  /** The rows of the expense table that belong to the tender. */
  function ExpensesOf(t: Tender, expenses: seq<Expense>): (r: seq<Expense>)
    ensures forall e :: e in r <==> e in expenses && e.tenderId == t.id
  {
    FilterMembers(expenses, (e: Expense) => e.tenderId == t.id);
    Filter(expenses, (e: Expense) => e.tenderId == t.id)
  }

  /** Tender.total_expenses(): never negative when the tender's expense
      amounts are not. */
  function TotalExpenses(t: Tender, expenses: seq<Expense>): (r: real)
    ensures (forall e :: e in expenses && e.tenderId == t.id ==> e.amount >= 0.0) ==> r >= 0.0
  {
    SumByNonNegative(ExpensesOf(t, expenses), ExpenseAmount);
    SumBy(ExpensesOf(t, expenses), ExpenseAmount)
  }

  /** Tender.profit(): never more than the tender's value when the tender's
      expense amounts are not negative. */
  function Profit(t: Tender, expenses: seq<Expense>): (r: real)
    ensures (forall e :: e in expenses && e.tenderId == t.id ==> e.amount >= 0.0) ==> r <= t.totalValue
  {
    t.totalValue - TotalExpenses(t, expenses)
  }

  /** The weight an expense row contributes to a tender: its amount if it
      belongs to the tender, nothing otherwise. */
  function ShareOf(t: Tender, e: Expense): real
  {
    if e.tenderId == t.id then e.amount else 0.0
  }

  /** Total expenses is the sum over the whole table of each row's share. */
  lemma TotalExpensesAsShares(t: Tender, expenses: seq<Expense>)
    ensures TotalExpenses(t, expenses) == SumBy(expenses, e => ShareOf(t, e))
  {
    SumByFilter(expenses, (e: Expense) => e.tenderId == t.id, ExpenseAmount, e => ShareOf(t, e));
  }

  /** Without expenses a tender has spent nothing and its profit is its value. */
  lemma NoExpenses(t: Tender, expenses: seq<Expense>)
    requires forall i :: 0 <= i < |expenses| ==> expenses[i].tenderId != t.id
    ensures TotalExpenses(t, expenses) == 0.0
    ensures Profit(t, expenses) == t.totalValue
  {
    TotalExpensesAsShares(t, expenses);
    SumByExt(expenses, e => ShareOf(t, e), e => 0.0);
    ZeroSum(expenses);
  }

  lemma {:induction false} ZeroSum(xs: seq<Expense>)
    ensures SumBy(xs, e => 0.0) == 0.0
    decreases |xs|
  {
    if xs != [] { ZeroSum(xs[1..]); }
  }

  /** Booking an expense of amount a against the tender raises its total
      expenses by a and lowers its profit by a; booking it against another
      tender changes neither. */
  lemma AddExpense(t: Tender, expenses: seq<Expense>, e: Expense)
    ensures e.tenderId == t.id ==>
      TotalExpenses(t, expenses + [e]) == TotalExpenses(t, expenses) + e.amount &&
      Profit(t, expenses + [e]) == Profit(t, expenses) - e.amount
    ensures e.tenderId != t.id ==>
      TotalExpenses(t, expenses + [e]) == TotalExpenses(t, expenses) &&
      Profit(t, expenses + [e]) == Profit(t, expenses)
  {
    TotalExpensesAsShares(t, expenses + [e]);
    TotalExpensesAsShares(t, expenses);
    SumByAppend(expenses, [e], e => ShareOf(t, e));
    assert [e][1..] == [];
  }

  /** The order of the expense rows does not matter. */
  lemma TotalExpensesOrderFree(t: Tender, xs: seq<Expense>, ys: seq<Expense>)
    requires multiset(xs) == multiset(ys)
    ensures TotalExpenses(t, xs) == TotalExpenses(t, ys)
    ensures Profit(t, xs) == Profit(t, ys)
  {
    TotalExpensesAsShares(t, xs);
    TotalExpensesAsShares(t, ys);
    SumByPermutation(xs, ys, e => ShareOf(t, e));
  }

  /** Profit is not clamped: it is negative exactly when expenses exceed the value. */
  lemma ProfitSign(t: Tender, expenses: seq<Expense>)
    ensures Profit(t, expenses) < 0.0 <==> TotalExpenses(t, expenses) > t.totalValue
    ensures Profit(t, expenses) + TotalExpenses(t, expenses) == t.totalValue
  {
  }
}
