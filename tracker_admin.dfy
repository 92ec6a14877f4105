/** The admin pages' display helpers for companies, tenders and expenses.
    Each computes a value from a record without changing it; the colour
    chosen for a figure is modelled, not the HTML markup around it. */
module TrackerAdmin {
  import opened Wrappers
  import opened Sums
  import opened Dates
  import opened TrackerModels

  datatype Colour = Green | Red | Orange | Blue | Black

  function TenderValue(t: Tender): real { t.totalValue }

  /** CompanyAdmin.total_tender_value: the sum of the company's tender values,
      0 when it has none. */
  function TotalTenderValue(c: Company, tenders: seq<Tender>): (r: real)
    ensures (forall t :: t in tenders && t.company.id == c.id ==> t.totalValue >= 0.0) ==> r >= 0.0
  {
    SumByNonNegative(TendersOf(c, tenders), TenderValue);
    SumBy(TendersOf(c, tenders), TenderValue)
  }

  function ValueShare(c: Company, t: Tender): real
  {
    if t.company.id == c.id then t.totalValue else 0.0
  }

  /** The company total is the sum over all tenders of the value each
      contributes to it; adding a tender of another company changes nothing,
      adding one of this company adds its value, and order does not matter. */
  lemma TotalTenderValueShares(c: Company, tenders: seq<Tender>)
    ensures TotalTenderValue(c, tenders) == SumBy(tenders, t => ValueShare(c, t))
  {
    SumByFilter(tenders, OfCompany(c), TenderValue, t => ValueShare(c, t));
  }

  lemma TotalTenderValueAdd(c: Company, tenders: seq<Tender>, t: Tender)
    ensures TotalTenderValue(c, tenders + [t]) ==
      TotalTenderValue(c, tenders) + (if t.company.id == c.id then t.totalValue else 0.0)
  {
    TotalTenderValueShares(c, tenders);
    TotalTenderValueShares(c, tenders + [t]);
    SumByAppend(tenders, [t], t => ValueShare(c, t));
    assert [t][1..] == [];
  }

  lemma TotalTenderValueOrderFree(c: Company, xs: seq<Tender>, ys: seq<Tender>)
    requires multiset(xs) == multiset(ys)
    ensures TotalTenderValue(c, xs) == TotalTenderValue(c, ys)
  {
    TotalTenderValueShares(c, xs);
    TotalTenderValueShares(c, ys);
    SumByPermutation(xs, ys, t => ValueShare(c, t));
  }

  /** The colour of a signed figure: green from zero up, red below. */
  function SignColour(x: real): (c: Colour)
    ensures c == Green || c == Red
    ensures c == Green <==> x >= 0.0
  {
    if x >= 0.0 then Green else Red
  }

  /** TenderAdmin.profit_display's colour: red exactly when the expenses
      exceed the tender's value. */
  function ProfitColour(t: Tender, expenses: seq<Expense>): (c: Colour)
    ensures c == Red <==> TotalExpenses(t, expenses) > t.totalValue
  {
    SignColour(Profit(t, expenses))
  }

  /** TenderAdmin.profit_margin: profit as a percentage of the value; None
      (shown as "N/A") unless the value is positive. */
  function ProfitMargin(t: Tender, expenses: seq<Expense>): (r: Option<real>)
    ensures r.Some? <==> t.totalValue > 0.0
    ensures r.Some? ==> r.value * t.totalValue == Profit(t, expenses) * 100.0
  {
    if t.totalValue > 0.0 then Some((Profit(t, expenses) / t.totalValue) * 100.0) else None
  }

  /** The margin's colour: shown exactly when there is a margin, and then red
      exactly when the margin is negative. */
  function MarginColour(t: Tender, expenses: seq<Expense>): (r: Option<Colour>)
    ensures r.Some? <==> t.totalValue > 0.0
    ensures r.Some? ==> (r.value == Red <==> ProfitMargin(t, expenses).value < 0.0)
  {
    match ProfitMargin(t, expenses)
    case None => None
    case Some(m) => Some(SignColour(m))
  }

  /** Where a margin is shown, it has the same colour as the profit. */
  lemma MarginColourAgrees(t: Tender, expenses: seq<Expense>)
    ensures t.totalValue > 0.0 ==> MarginColour(t, expenses) == Some(ProfitColour(t, expenses))
  {
    if t.totalValue > 0.0 {
      var m := ProfitMargin(t, expenses).value;
      var p := Profit(t, expenses);
      PositiveFactorSign(m, t.totalValue);
      PositiveFactorSign(p, 100.0);
    }
  }

  /** Multiplying by a positive factor keeps the sign. */
  lemma PositiveFactorSign(a: real, b: real)
    requires b > 0.0
    ensures a >= 0.0 <==> a * b >= 0.0
    ensures a == 0.0 <==> a * b == 0.0
  {
  }

  /** A percentage of a positive value that is what is left after a non-negative
      spend is at most 100, and equals 100 exactly when nothing was spent. */
  lemma PercentLeftBound(m: real, v: real, spent: real)
    requires v > 0.0 && spent >= 0.0
    requires m * v == (v - spent) * 100.0
    ensures m <= 100.0
    ensures m == 100.0 <==> spent == 0.0
  {
    assert (m - 100.0) * v == -spent * 100.0;
    PositiveFactorSign(m - 100.0, v);
  }

  /** With non-negative expenses the margin is at most 100 percent, reached
      exactly when nothing has been spent. */
  lemma MarginAtMostHundred(t: Tender, expenses: seq<Expense>)
    requires t.totalValue > 0.0
    requires forall e :: e in expenses ==> e.amount >= 0.0
    ensures ProfitMargin(t, expenses).value <= 100.0
    ensures ProfitMargin(t, expenses).value == 100.0 <==> TotalExpenses(t, expenses) == 0.0
  {
    SumByNonNegative(ExpensesOf(t, expenses), ExpenseAmount);
    PercentLeftBound(ProfitMargin(t, expenses).value, t.totalValue, TotalExpenses(t, expenses));
  }

  /** TenderAdmin.payment_status_colored's colour map; red, the colour of a
      loss, is never a status colour. */
  function StatusColour(status: string): (c: Colour)
    ensures c != Red
    ensures c == Black <==> status != Pending && status != PartiallyPaid && status != Paid
  {
    if status == Pending then Orange
    else if status == PartiallyPaid then Blue
    else if status == Paid then Green
    else Black
  }

  /** Each of the three payment states has its own colour, and any other text is black. */
  lemma StatusColourMap(status: string)
    ensures StatusColour(status) == Orange <==> status == "Pending"
    ensures StatusColour(status) == Blue <==> status == "Partially Paid"
    ensures StatusColour(status) == Green <==> status == "Paid"
    ensures StatusColour(status) == Black <==> status !in {"Pending", "Partially Paid", "Paid"}
    ensures StatusColour(status) != Red
  {
  }

  /** TenderAdmin.duration_days: days from start to end when both dates are set. */
  function DurationDays(startDate: Option<CalendarDate>, endDate: Option<CalendarDate>): (r: Option<int>)
    ensures r.Some? <==> startDate.Some? && endDate.Some?
  {
    if startDate.Some? && endDate.Some? then Some(Ordinal(endDate.value) - Ordinal(startDate.value))
    else None
  }

  /** The duration's sign follows the calendar: positive when the tender ends
      after it starts, zero on the same day, negative when the dates are reversed. */
  lemma DurationSign(s: CalendarDate, e: CalendarDate)
    ensures DurationDays(Some(s), Some(e)).value > 0 <==> Before(s, e)
    ensures DurationDays(Some(s), Some(e)).value == 0 <==> s == e
    ensures DurationDays(Some(s), Some(e)).value < 0 <==> Before(e, s)
  {
    OrdinalOrder(s, e);
    OrdinalOrder(e, s);
  }

  /** Durations add up over consecutive periods. */
  lemma DurationAdds(a: CalendarDate, b: CalendarDate, c: CalendarDate)
    ensures DurationDays(Some(a), Some(c)).value ==
      DurationDays(Some(a), Some(b)).value + DurationDays(Some(b), Some(c)).value
  {
  }

  /** ExpenseAdmin.description_short: "-" for a missing or empty description,
      the first 50 characters and "..." for a longer one, the text otherwise. */
  function DescriptionShort(description: Option<string>): (r: string)
    ensures |r| <= 53 && r != []
    ensures description.None? || description.value == [] ==> r == "-"
    ensures description.Some? && 0 < |description.value| <= 50 ==> r == description.value
    ensures description.Some? && |description.value| > 50 ==>
      |r| == 53 && r[..50] == description.value[..50] && r[50..] == "..."
  {
    if description.Some? && description.value != [] then
      var d := description.value;
      if |d| > 50 then d[..50] + "..." else d
    else "-"
  }
}
