/** The tracker's JSON endpoints and pages: recording a payment, the tender
    list with its filters and computed figures, per-company chart series,
    the dashboard summary, the expense feed and the expense list total.
    Tables are in-memory sequences of rows. */
module TrackerViews {
  import opened Wrappers
  import opened Text
  import opened Sums
  import opened Dates
  import opened TrackerModels
  import opened TrackerAdmin

  // ---------------------------------------------------------------------------
  // Row lookups and referential integrity

  /** The tender with the given primary key, if any. */
  function TenderById(tenders: seq<Tender>, id: int): (r: Option<Tender>)
    ensures r.Some? ==> r.value in tenders && r.value.id == id
    ensures r.None? ==> forall k :: 0 <= k < |tenders| ==> tenders[k].id != id
    decreases |tenders|
  {
    if tenders == [] then None
    else if tenders[0].id == id then Some(tenders[0])
    else TenderById(tenders[1..], id)
  }

  /** The position of the tender with the given primary key, or |tenders|. */
  function TenderIndex(tenders: seq<Tender>, id: int): (k: nat)
    ensures k <= |tenders|
    ensures k < |tenders| ==> tenders[k].id == id
    ensures k == |tenders| ==> forall j :: 0 <= j < |tenders| ==> tenders[j].id != id
    decreases |tenders|
  {
    if tenders == [] then 0
    else if tenders[0].id == id then 0
    else 1 + TenderIndex(tenders[1..], id)
  }

  predicate UniqueTenderIds(tenders: seq<Tender>)
  {
    forall i, j :: 0 <= i < j < |tenders| ==> tenders[i].id != tenders[j].id
  }

  predicate HasTender(tenders: seq<Tender>, id: int)
  {
    exists k :: 0 <= k < |tenders| && tenders[k].id == id
  }

  /** The database's guarantees: primary keys are unique and every expense
      and payment points at an existing tender. */
  predicate Integrity(tenders: seq<Tender>, expenses: seq<Expense>, payments: seq<Payment>)
  {
    UniqueTenderIds(tenders) &&
    (forall e :: e in expenses ==> HasTender(tenders, e.tenderId)) &&
    (forall p :: p in payments ==> HasTender(tenders, p.tenderId))
  }

  // ---------------------------------------------------------------------------
  // add_payment

  datatype AddPaymentOutcome =
    | Recorded
    | BadRequest(message: string)
    /** Tender.objects.get raises an uncaught ValueError for a non-integer key. */
    | ServerError

  /** What the request's fields decide before anything is written: the
      tender's position and the amount, or the outcome of a refusal. */
  datatype PaymentCheck = Accept(index: nat, amount: real) | Refuse(outcome: AddPaymentOutcome)

  /** `not x` for an optional form field: missing or empty. */
  predicate Blank(field: Option<string>) { field.None? || field.value == "" }

  function CheckPayment(tenderField: Option<string>, amountField: Option<string>, tenders: seq<Tender>): (r: PaymentCheck)
    ensures r.Accept? ==> r.index < |tenders|
    ensures r.Refuse? ==> !r.outcome.Recorded?
  {
    if Blank(tenderField) || Blank(amountField) then Refuse(BadRequest("Missing tender or amount"))
    else match ParseInt(tenderField.value)
      case None => Refuse(ServerError)
      case Some(id) =>
        var k := TenderIndex(tenders, id);
        if k == |tenders| then Refuse(BadRequest("Tender not found"))
        else match ParseDecimal(amountField.value)
          case None => Refuse(BadRequest("Invalid amount"))
          case Some(amount) => Accept(k, amount)
  }

  /** A payment is accepted exactly when both fields are given, the key names
      an existing tender and the amount is a decimal; each refusal names the
      first check that failed. */
  lemma CheckPaymentCases(tenderField: Option<string>, amountField: Option<string>, tenders: seq<Tender>)
    ensures CheckPayment(tenderField, amountField, tenders).Accept? <==>
      !Blank(tenderField) && !Blank(amountField) &&
      ParseInt(tenderField.value).Some? && HasTender(tenders, ParseInt(tenderField.value).value) &&
      ParseDecimal(amountField.value).Some?
    ensures Blank(tenderField) || Blank(amountField) ==>
      CheckPayment(tenderField, amountField, tenders) == Refuse(BadRequest("Missing tender or amount"))
    ensures (!Blank(tenderField) && !Blank(amountField) && ParseInt(tenderField.value).Some? &&
             !HasTender(tenders, ParseInt(tenderField.value).value)) ==>
              CheckPayment(tenderField, amountField, tenders) == Refuse(BadRequest("Tender not found"))
    ensures CheckPayment(tenderField, amountField, tenders).Accept? ==>
      var c := CheckPayment(tenderField, amountField, tenders);
      tenders[c.index].id == ParseInt(tenderField.value).value &&
      Some(c.amount) == ParseDecimal(amountField.value)
  {
    if !Blank(tenderField) && !Blank(amountField) && ParseInt(tenderField.value).Some? {
      var id := ParseInt(tenderField.value).value;
      var k := TenderIndex(tenders, id);
      if HasTender(tenders, id) {
        var j :| 0 <= j < |tenders| && tenders[j].id == id;
        assert k < |tenders|;
      }
    }
  }

  /** The tracker's tables. */
  class TrackerStore {
    var companies: seq<Company>
    var tenders: seq<Tender>
    var expenses: seq<Expense>
    var payments: seq<Payment>

    constructor (companies: seq<Company>, tenders: seq<Tender>, expenses: seq<Expense>)
      ensures this.companies == companies && this.tenders == tenders
      ensures this.expenses == expenses && payments == []
    {
      this.companies := companies;
      this.tenders := tenders;
      this.expenses := expenses;
      payments := [];
    }

    predicate Valid()
      reads this
    {
      Integrity(tenders, expenses, payments)
    }

    /** add_payment. On acceptance one payment row is added and the tender's
        status is recomputed by `statusRule` (update_payment_status, which is
        not part of this model) over the payments including the new one and
        saved; on every refusal nothing is written. The store's integrity is
        kept. */
    method AddPayment(tenderField: Option<string>, amountField: Option<string>,
                      statusRule: (Tender, seq<Payment>) -> string)
      returns (outcome: AddPaymentOutcome)
      modifies this`payments, this`tenders
      ensures var c := CheckPayment(tenderField, amountField, old(tenders));
        match c
        case Refuse(o) => outcome == o && payments == old(payments) && tenders == old(tenders)
        case Accept(k, amount) =>
          var t := old(tenders)[k];
          outcome == Recorded &&
          payments == old(payments) + [Payment(t.id, amount)] &&
          tenders == old(tenders)[k := t.(paymentStatus := statusRule(t, payments))]
      ensures old(Valid()) ==> Valid()
    {
      var check := CheckPayment(tenderField, amountField, tenders);
      if check.Refuse? {
        return check.outcome;
      }
      var t := tenders[check.index];
      payments := payments + [Payment(t.id, check.amount)];
      tenders := tenders[check.index := t.(paymentStatus := statusRule(t, payments))];
      outcome := Recorded;
      assert HasTender(tenders, t.id) by { assert tenders[check.index].id == t.id; }
      assert forall i :: 0 <= i < |tenders| ==> tenders[i].id == old(tenders)[i].id;
      assert forall id :: HasTender(old(tenders), id) ==> HasTender(tenders, id);
    }
  }

  // ---------------------------------------------------------------------------
  // api_tenders

  /** The tender list's query parameters. An absent company or date and an
      empty status or search text are not applied. */
  datatype TenderQuery = TenderQuery(
    company: Option<int>,
    status: string,
    dateFrom: Option<CalendarDate>,
    dateTo: Option<CalendarDate>,
    q: string)

  /** A date filter as read from its parameter: not applied when the parameter
      is empty, the date when it is one, and otherwise a value the date lookup
      rejects with a ValidationError, which fails the request. */
  datatype DateFilter = NoDate | OnDate(date: CalendarDate) | BadDate

  function DateParam(s: string): (r: DateFilter)
    ensures r.NoDate? <==> s == ""
    ensures r.BadDate? <==> s != "" && ParseIso(s).None?
    ensures r.OnDate? ==> ParseIso(s) == Some(r.date)
  {
    if s == "" then NoDate
    else match ParseIso(s)
      case None => BadDate
      case Some(d) => OnDate(d)
  }

  /** The query string as sent: the dates are still text, and a missing
      parameter is the empty text. */
  datatype TenderParams = TenderParams(
    company: Option<int>,
    status: string,
    dateFrom: string,
    dateTo: string,
    q: string)

  /** The query the filters apply, or None when a date parameter is not a date. */
  function ReadQuery(params: TenderParams): (r: Option<TenderQuery>)
    ensures r.None? <==> DateParam(params.dateFrom).BadDate? || DateParam(params.dateTo).BadDate?
    ensures r.Some? ==>
              r.value.company == params.company && r.value.status == params.status && r.value.q == params.q &&
              (r.value.dateFrom.Some? <==> params.dateFrom != "") &&
              (r.value.dateTo.Some? <==> params.dateTo != "") &&
              (r.value.dateFrom.Some? ==> ParseIso(params.dateFrom) == Some(r.value.dateFrom.value)) &&
              (r.value.dateTo.Some? ==> ParseIso(params.dateTo) == Some(r.value.dateTo.value))
  {
    var from := DateParam(params.dateFrom);
    var to := DateParam(params.dateTo);
    if from.BadDate? || to.BadDate? then None
    else Some(TenderQuery(params.company, params.status,
                          if from.OnDate? then Some(from.date) else None,
                          if to.OnDate? then Some(to.date) else None, params.q))
  }

  function ByCompany(id: int): Tender -> bool { (t: Tender) => t.company.id == id }

  function ByStatus(status: string): Tender -> bool { (t: Tender) => t.paymentStatus == status }

  /** start_date >= date_from; a tender without a start date never matches. */
  function StartsFrom(d: CalendarDate): Tender -> bool
  {
    (t: Tender) => t.startDate.Some? && AtOrBefore(d, t.startDate.value)
  }

  /** end_date <= date_to; a tender without an end date never matches. */
  function EndsBy(d: CalendarDate): Tender -> bool
  {
    (t: Tender) => t.endDate.Some? && AtOrBefore(t.endDate.value, d)
  }

  /** The free-text search: tender number, client or company name contains q, ignoring case. */
  function Mentions(q: string): Tender -> bool
  {
    (t: Tender) => IContains(t.tenderNo, q) || IContains(t.clientName, q) || IContains(t.company.name, q)
  }

  /** One `if param: qs = qs.filter(...)` step: whether the parameter was
      given, and the test it applies. */
  datatype Step = Step(given: bool, test: Tender -> bool)

  function Narrow(xs: seq<Tender>, step: Step): seq<Tender>
  {
    if step.given then Filter(xs, step.test) else xs
  }

  /** The steps in turn; each keeps a part of what it is given. */
  function NarrowAll(xs: seq<Tender>, steps: seq<Step>): (r: seq<Tender>)
    ensures |r| <= |xs|
    ensures forall t :: t in r ==> t in xs
    decreases |steps|
  {
    if steps == [] then xs else NarrowAll(Narrow(xs, steps[0]), steps[1..])
  }

  /** The view's five optional filters, in its order. */
  function Steps(query: TenderQuery): seq<Step>
  {
    [Step(query.company.Some?, ByCompany(if query.company.Some? then query.company.value else 0)),
     Step(query.status != "", ByStatus(query.status)),
     Step(query.dateFrom.Some?, StartsFrom(if query.dateFrom.Some? then query.dateFrom.value else Date(1, 1, 1))),
     Step(query.dateTo.Some?, EndsBy(if query.dateTo.Some? then query.dateTo.value else Date(1, 1, 1))),
     Step(query.q != "", Mentions(query.q))]
  }

  /** The query set after the optional filters: tenders of the table, never more than it holds. */
  function FilteredTenders(tenders: seq<Tender>, query: TenderQuery): (r: seq<Tender>)
    ensures |r| <= |tenders|
    ensures forall t :: t in r ==> t in tenders
  {
    NarrowAll(tenders, Steps(query))
  }

  /** A tender passes the query when every given parameter accepts it; a
      query without parameters accepts every tender. */
  predicate Matches(query: TenderQuery, t: Tender)
    ensures query == TenderQuery(None, "", None, None, "") ==> Matches(query, t)
  {
    (query.company.None? || t.company.id == query.company.value) &&
    (query.status == "" || t.paymentStatus == query.status) &&
    (query.dateFrom.None? || (t.startDate.Some? && AtOrBefore(query.dateFrom.value, t.startDate.value))) &&
    (query.dateTo.None? || (t.endDate.Some? && AtOrBefore(t.endDate.value, query.dateTo.value))) &&
    (query.q == "" || IContains(t.tenderNo, query.q) || IContains(t.clientName, query.q) ||
     IContains(t.company.name, query.q))
  }

  predicate PassesAll(steps: seq<Step>, t: Tender)
  {
    forall i :: 0 <= i < |steps| ==> !steps[i].given || steps[i].test(t)
  }

  lemma NarrowIsFilter(xs: seq<Tender>, step: Step)
    ensures Narrow(xs, step) == Filter(xs, t => !step.given || step.test(t))
  {
    if !step.given { FilterAll(xs, t => !step.given || step.test(t)); }
    else { FilterExt(xs, step.test, t => !step.given || step.test(t)); }
  }

  /** Successive optional filters keep what passes all of them. */
  lemma {:induction false} NarrowAllIsFilter(xs: seq<Tender>, steps: seq<Step>)
    ensures NarrowAll(xs, steps) == Filter(xs, t => PassesAll(steps, t))
    decreases |steps|
  {
    if steps == [] {
      FilterAll(xs, t => PassesAll(steps, t));
    } else {
      var s0, rest := steps[0], steps[1..];
      var first := (t: Tender) => !s0.given || s0.test(t);
      NarrowIsFilter(xs, s0);
      NarrowAllIsFilter(Narrow(xs, s0), rest);
      forall t ensures PassesAll(steps, t) == (first(t) && PassesAll(rest, t)) {
        if first(t) && PassesAll(rest, t) {
          forall i | 0 <= i < |steps| ensures !steps[i].given || steps[i].test(t) {
            if i > 0 { assert steps[i] == rest[i - 1]; }
          }
        }
      }
      FilterFilter(xs, first, t => PassesAll(rest, t), t => PassesAll(steps, t));
    }
  }

  /** A tender passes the five steps exactly when it matches the query. */
  lemma StepsMatch(query: TenderQuery, t: Tender)
    ensures PassesAll(Steps(query), t) == Matches(query, t)
  {
    var steps := Steps(query);
    var ok := (i: int) requires 0 <= i < 5 => !steps[i].given || steps[i].test(t);
    assert PassesAll(steps, t) <==> ok(0) && ok(1) && ok(2) && ok(3) && ok(4);
    assert ok(0) == (query.company.None? || t.company.id == query.company.value);
    assert ok(1) == (query.status == "" || t.paymentStatus == query.status);
    assert ok(2) == (query.dateFrom.None? || (t.startDate.Some? && AtOrBefore(query.dateFrom.value, t.startDate.value)));
    assert ok(3) == (query.dateTo.None? || (t.endDate.Some? && AtOrBefore(t.endDate.value, query.dateTo.value)));
  }

  /** The chained filters are one conjunctive filter: the result is exactly
      the tenders, in their order, that pass every given parameter. */
  lemma FilteredTendersConjunctive(tenders: seq<Tender>, query: TenderQuery)
    ensures FilteredTenders(tenders, query) == Filter(tenders, t => Matches(query, t))
  {
    var steps := Steps(query);
    NarrowAllIsFilter(tenders, steps);
    forall t ensures PassesAll(steps, t) == Matches(query, t) {
      StepsMatch(query, t);
    }
    FilterExt(tenders, t => PassesAll(steps, t), t => Matches(query, t));
  }

  /** Without parameters every tender is listed. */
  lemma NoQueryListsAll(tenders: seq<Tender>)
    ensures FilteredTenders(tenders, TenderQuery(None, "", None, None, "")) == tenders
  {
    var query := TenderQuery(None, "", None, None, "");
    FilteredTendersConjunctive(tenders, query);
    FilterAll(tenders, t => Matches(query, t));
  }

  /** The search ignores the case of the search text. */
  lemma SearchIgnoresCase(query: TenderQuery, t: Tender)
    ensures Matches(query.(q := Upper(query.q)), t) == Matches(query, t)
  {
    IContainsIgnoresCase(t.tenderNo, query.q);
    IContainsIgnoresCase(t.clientName, query.q);
    IContainsIgnoresCase(t.company.name, query.q);
  }

  /** total_paid, expense_overrun and update_payment_status are not part of
      this model; they enter as functions of the tender. */
  datatype TenderRules = TenderRules(
    totalPaid: Tender -> real,
    expenseOverrun: Tender -> real,
    updatedStatus: Tender -> string)

  /** One entry of the tender list. */
  datatype TenderRow = TenderRow(
    id: int,
    tenderNo: string,
    company: string,
    companyId: int,
    clientName: string,
    totalValue: real,
    totalExpenses: real,
    totalPaid: real,
    balance: real,
    profit: real,
    expenseOverrun: real,
    paymentStatus: string,
    startDate: Option<string>,
    endDate: Option<string>,
    expenseCount: nat,
    paymentCount: nat)

  function IsoOf(d: Option<CalendarDate>): Option<string>
  {
    if d.Some? then Some(IsoFormat(d.value)) else None
  }

  function PaymentsOf(t: Tender, payments: seq<Payment>): seq<Payment>
  {
    Filter(payments, (p: Payment) => p.tenderId == t.id)
  }

  /** One entry: the balance is what is left to be paid and the profit what is
      left after the expenses; the two counts are at most the table sizes. */
  function RowOf(t: Tender, expenses: seq<Expense>, payments: seq<Payment>, rules: TenderRules): (r: TenderRow)
    ensures r.id == t.id && r.totalValue == t.totalValue
    ensures r.balance + r.totalPaid == r.totalValue && r.profit + r.totalExpenses == r.totalValue
    ensures r.expenseCount <= |expenses| && r.paymentCount <= |payments|
  {
    var totalExpenses := TotalExpenses(t, expenses);
    var totalPaid := rules.totalPaid(t);
    TenderRow(t.id, t.tenderNo, t.company.name, t.company.id, t.clientName, t.totalValue,
      totalExpenses, totalPaid, t.totalValue - totalPaid, t.totalValue - totalExpenses,
      rules.expenseOverrun(t), rules.updatedStatus(t), IsoOf(t.startDate), IsoOf(t.endDate),
      |ExpensesOf(t, expenses)|, |PaymentsOf(t, payments)|)
  }

  /** api_tenders: one entry per tender that passes the query, in query order. */
  method ApiTenders(tenders: seq<Tender>, query: TenderQuery, expenses: seq<Expense>,
                    payments: seq<Payment>, rules: TenderRules)
    returns (data: seq<TenderRow>)
    ensures |data| == |FilteredTenders(tenders, query)| == CountBy(tenders, t => Matches(query, t))
    ensures forall j :: 0 <= j < |data| ==>
      data[j] == RowOf(FilteredTenders(tenders, query)[j], expenses, payments, rules)
  {
    var qs := FilteredTenders(tenders, query);
    FilteredTendersConjunctive(tenders, query);
    FilterLength(tenders, t => Matches(query, t));
    data := MapFirst(qs, |qs|, (t: Tender) => RowOf(t, expenses, payments, rules));
  }

  /** The request as a whole: a date parameter that is not a date fails it
      (None); otherwise the listing of the query it denotes. */
  method ApiTendersRequest(params: TenderParams, tenders: seq<Tender>, expenses: seq<Expense>,
                           payments: seq<Payment>, rules: TenderRules)
    returns (response: Option<seq<TenderRow>>)
    ensures response.None? <==> DateParam(params.dateFrom).BadDate? || DateParam(params.dateTo).BadDate?
    ensures response.Some? ==>
              var query := ReadQuery(params).value;
              |response.value| == |FilteredTenders(tenders, query)| == CountBy(tenders, t => Matches(query, t)) &&
              forall j :: 0 <= j < |response.value| ==>
                response.value[j] == RowOf(FilteredTenders(tenders, query)[j], expenses, payments, rules)
  {
    var query := ReadQuery(params);
    if query.None? {
      return None;
    }
    var data := ApiTenders(tenders, query.value, expenses, payments, rules);
    return Some(data);
  }

  /** Every listed entry comes from a tender that passes the query. */
  lemma ListedTendersMatch(tenders: seq<Tender>, query: TenderQuery)
    ensures forall t :: t in FilteredTenders(tenders, query) <==> t in tenders && Matches(query, t)
  {
    FilteredTendersConjunctive(tenders, query);
    FilterMembers(tenders, t => Matches(query, t));
  }

  /** The figures of an entry: balance and profit are the value less what was
      paid and spent, profit is the tender's profit, the counts are the
      tender's rows, and the dates read back as the tender's dates. */
  lemma RowFigures(t: Tender, expenses: seq<Expense>, payments: seq<Payment>, rules: TenderRules)
    ensures var r := RowOf(t, expenses, payments, rules);
      r.balance + r.totalPaid == r.totalValue &&
      r.profit == Profit(t, expenses) &&
      r.expenseCount == CountBy(expenses, (e: Expense) => e.tenderId == t.id) &&
      (r.startDate.Some? <==> t.startDate.Some?) &&
      (r.startDate.Some? ==> ParseIso(r.startDate.value) == Some(t.startDate.value)) &&
      (r.endDate.Some? <==> t.endDate.Some?) &&
      (r.endDate.Some? ==> ParseIso(r.endDate.value) == Some(t.endDate.value))
  {
    FilterLength(expenses, (e: Expense) => e.tenderId == t.id);
    if t.startDate.Some? { IsoRoundTrip(t.startDate.value); }
    if t.endDate.Some? { IsoRoundTrip(t.endDate.value); }
  }

  // ---------------------------------------------------------------------------
  // Joins through an expense's or payment's tender

  /** The company of the tender an expense or payment points at. */
  function CompanyOfTender(tenders: seq<Tender>, tenderId: int): Option<int>
  {
    match TenderById(tenders, tenderId)
    case None => None
    case Some(t) => Some(t.company.id)
  }

  /** `Expense.objects.filter(tender__company=c)`. */
  function ExpensesOfCompany(c: Company, tenders: seq<Tender>, expenses: seq<Expense>): seq<Expense>
  {
    Filter(expenses, (e: Expense) => CompanyOfTender(tenders, e.tenderId) == Some(c.id))
  }

  function PaymentAmount(p: Payment): real { p.amount }

  /** `Payment.objects.filter(tender__company=c)`. */
  function PaymentsOfCompany(c: Company, tenders: seq<Tender>, payments: seq<Payment>): seq<Payment>
  {
    Filter(payments, (p: Payment) => CompanyOfTender(tenders, p.tenderId) == Some(c.id))
  }

  /** The sum of the expenses booked against the company's tenders; never
      negative when no expense amount is. */
  function CompanyExpenses(c: Company, tenders: seq<Tender>, expenses: seq<Expense>): (r: real)
    ensures (forall e :: e in expenses ==> e.amount >= 0.0) ==> r >= 0.0
  {
    SumByNonNegative(ExpensesOfCompany(c, tenders, expenses), ExpenseAmount);
    SumBy(ExpensesOfCompany(c, tenders, expenses), ExpenseAmount)
  }

  /** The sum of the payments made on the company's tenders; never negative
      when no payment amount is. */
  function CompanyPaid(c: Company, tenders: seq<Tender>, payments: seq<Payment>): (r: real)
    ensures (forall p :: p in payments ==> p.amount >= 0.0) ==> r >= 0.0
  {
    SumByNonNegative(PaymentsOfCompany(c, tenders, payments), PaymentAmount);
    SumBy(PaymentsOfCompany(c, tenders, payments), PaymentAmount)
  }

  /** The sum of the company's tenders' overruns: 0 for a company without
      tenders, never negative when no overrun is. */
  function CompanyOverrun(c: Company, tenders: seq<Tender>, rules: TenderRules): (r: real)
    ensures (forall t :: t in tenders && t.company.id == c.id ==> rules.expenseOverrun(t) >= 0.0) ==> r >= 0.0
    ensures (forall t :: t in tenders ==> t.company.id != c.id) ==> r == 0.0
  {
    SumByNonNegative(TendersOf(c, tenders), rules.expenseOverrun);
    SumBy(TendersOf(c, tenders), rules.expenseOverrun)
  }

  /** With unique keys, exactly one tender carries the id an expense points
      at, so counting the tenders with that id that also pass p gives 1 or 0. */
  lemma {:induction false} UniqueCount(tenders: seq<Tender>, id: int, p: Tender -> bool, q: Tender -> bool)
    requires UniqueTenderIds(tenders) && HasTender(tenders, id)
    requires forall t :: q(t) == (p(t) && t.id == id)
    ensures TenderById(tenders, id).Some?
    ensures CountBy(tenders, q) == if p(TenderById(tenders, id).value) then 1 else 0
    decreases |tenders|
  {
    var k :| 0 <= k < |tenders| && tenders[k].id == id;
    if tenders[0].id == id {
      CountByNone(tenders[1..], q);
    } else {
      assert tenders[1..][k - 1].id == id;
      UniqueCount(tenders[1..], id, p, q);
    }
  }

  /** The weight an expense carries towards the tenders that pass p: its
      amount when its tender passes p. */
  function WeightIfTender(tenders: seq<Tender>, p: Tender -> bool, e: Expense): real
  {
    var t := TenderById(tenders, e.tenderId);
    if t.Some? && p(t.value) then e.amount else 0.0
  }

  /** What an expense contributes to a tender when the tender passes p. */
  function PairWeight(p: Tender -> bool, t: Tender, e: Expense): real
  {
    if p(t) && e.tenderId == t.id then e.amount else 0.0
  }

  function ByTender(p: Tender -> bool): Tender -> Expense -> real
  {
    t => e => PairWeight(p, t, e)
  }

  function ByExpense(p: Tender -> bool): Expense -> Tender -> real
  {
    e => t => PairWeight(p, t, e)
  }

  function TenderTotalIf(p: Tender -> bool, expenses: seq<Expense>): Tender -> real
  {
    t => if p(t) then TotalExpenses(t, expenses) else 0.0
  }

  lemma TenderTotalAsSum(p: Tender -> bool, t: Tender, expenses: seq<Expense>)
    ensures TenderTotalIf(p, expenses)(t) == SumBy(expenses, ByTender(p)(t))
  {
    if p(t) {
      TotalExpensesAsShares(t, expenses);
      SumByExt(expenses, e => ShareOf(t, e), ByTender(p)(t));
    } else {
      SumByZero(expenses, ByTender(p)(t));
    }
  }

  lemma ExpenseColumn(tenders: seq<Tender>, p: Tender -> bool, e: Expense)
    requires UniqueTenderIds(tenders) && HasTender(tenders, e.tenderId)
    ensures SumBy(tenders, ByExpense(p)(e)) == WeightIfTender(tenders, p, e)
  {
    var q := (t: Tender) => p(t) && t.id == e.tenderId;
    SumByIndicator(tenders, q, e.amount, ByExpense(p)(e));
    UniqueCount(tenders, e.tenderId, p, q);
  }

  /** Summing the expenses of each tender that passes p is summing, over the
      expense table, the expenses whose tender passes p. */
  lemma GroupedExpenses(tenders: seq<Tender>, expenses: seq<Expense>, p: Tender -> bool)
    requires Integrity(tenders, expenses, [])
    ensures SumBy(Filter(tenders, p), t => TotalExpenses(t, expenses)) ==
      SumBy(expenses, e => WeightIfTender(tenders, p, e))
  {
    var rows := TenderTotalIf(p, expenses);
    var cols := (e: Expense) => SumBy(tenders, ByExpense(p)(e));
    SumByFilter(tenders, p, t => TotalExpenses(t, expenses), rows);
    forall t ensures rows(t) == SumBy(expenses, ByTender(p)(t)) { TenderTotalAsSum(p, t, expenses); }
    SumBySwap(tenders, expenses, ByTender(p), ByExpense(p), rows, cols);
    forall e | e in expenses ensures cols(e) == WeightIfTender(tenders, p, e) {
      ExpenseColumn(tenders, p, e);
    }
    SumByExt(expenses, cols, e => WeightIfTender(tenders, p, e));
  }

  /** A company's expense total is the sum of its tenders' total expenses,
      and its profit the sum of its tenders' profits. */
  lemma CompanyExpensesByTender(c: Company, tenders: seq<Tender>, expenses: seq<Expense>)
    requires Integrity(tenders, expenses, [])
    ensures CompanyExpenses(c, tenders, expenses) == SumBy(TendersOf(c, tenders), t => TotalExpenses(t, expenses))
    ensures TotalTenderValue(c, tenders) - CompanyExpenses(c, tenders, expenses) ==
      SumBy(TendersOf(c, tenders), t => Profit(t, expenses))
  {
    var inCompany := (e: Expense) => CompanyOfTender(tenders, e.tenderId) == Some(c.id);
    GroupedExpenses(tenders, expenses, OfCompany(c));
    SumByFilter(expenses, inCompany, ExpenseAmount, e => WeightIfTender(tenders, OfCompany(c), e));
    SumByAdd(TendersOf(c, tenders), t => Profit(t, expenses), t => TotalExpenses(t, expenses), TenderValue);
  }

  // ---------------------------------------------------------------------------
  // api_tenders_by_company

  /** The six chart series, one entry per company. */
  datatype CompanySeries = CompanySeries(
    labels: seq<string>,
    values: seq<real>,
    paids: seq<real>,
    expenses: seq<real>,
    profits: seq<real>,
    overruns: seq<real>)

  predicate SeriesEntry(r: CompanySeries, i: int, c: Company, tenders: seq<Tender>,
                        expenses: seq<Expense>, payments: seq<Payment>, rules: TenderRules)
    requires 0 <= i < |r.labels| && |r.values| == |r.paids| == |r.expenses| == |r.profits| == |r.overruns| == |r.labels|
  {
    r.labels[i] == c.name &&
    r.values[i] == TotalTenderValue(c, tenders) &&
    r.paids[i] == CompanyPaid(c, tenders, payments) &&
    r.expenses[i] == CompanyExpenses(c, tenders, expenses) &&
    r.profits[i] == r.values[i] - r.expenses[i] &&
    r.overruns[i] == CompanyOverrun(c, tenders, rules)
  }

  /** The overrun accumulator loop over a company's tenders. */
  method SumOverruns(ts: seq<Tender>, rules: TenderRules) returns (overrun: real)
    ensures overrun == SumBy(ts, rules.expenseOverrun)
  {
    overrun := 0.0;
    var j := 0;
    while j < |ts|
      invariant 0 <= j <= |ts|
      invariant overrun == SumBy(ts[..j], rules.expenseOverrun)
    {
      SumByAppend(ts[..j], [ts[j]], rules.expenseOverrun);
      assert ts[..j + 1] == ts[..j] + [ts[j]];
      assert SumBy([ts[j]], rules.expenseOverrun) == rules.expenseOverrun(ts[j]) by { assert [ts[j]][1..] == []; }
      overrun := overrun + rules.expenseOverrun(ts[j]);
      j := j + 1;
    }
    assert ts[..j] == ts;
  }

  /** api_tenders_by_company over the companies in the listing's order (by name). */
  method ApiTendersByCompany(companies: seq<Company>, tenders: seq<Tender>, expenses: seq<Expense>,
                             payments: seq<Payment>, rules: TenderRules)
    returns (r: CompanySeries)
    ensures |r.labels| == |r.values| == |r.paids| == |r.expenses| == |r.profits| == |r.overruns| == |companies|
    ensures forall i :: 0 <= i < |companies| ==> SeriesEntry(r, i, companies[i], tenders, expenses, payments, rules)
  {
    r := CompanySeries([], [], [], [], [], []);
    var i := 0;
    while i < |companies|
      invariant 0 <= i <= |companies|
      invariant |r.labels| == |r.values| == |r.paids| == |r.expenses| == |r.profits| == |r.overruns| == i
      invariant forall k :: 0 <= k < i ==> SeriesEntry(r, k, companies[k], tenders, expenses, payments, rules)
    {
      var c := companies[i];
      var tv := TotalTenderValue(c, tenders);
      var te := CompanyExpenses(c, tenders, expenses);
      var tp := CompanyPaid(c, tenders, payments);
      var profit := tv - te;
      var overrun := SumOverruns(TendersOf(c, tenders), rules);
      ghost var prev := r;
      r := CompanySeries(r.labels + [c.name], r.values + [tv], r.paids + [tp], r.expenses + [te],
                         r.profits + [profit], r.overruns + [overrun]);
      forall k | 0 <= k < i
        ensures SeriesEntry(r, k, companies[k], tenders, expenses, payments, rules)
      {
        assert SeriesEntry(prev, k, companies[k], tenders, expenses, payments, rules);
        assert r.labels[k] == prev.labels[k] && r.values[k] == prev.values[k] && r.paids[k] == prev.paids[k];
        assert r.expenses[k] == prev.expenses[k] && r.profits[k] == prev.profits[k] && r.overruns[k] == prev.overruns[k];
      }
      i := i + 1;
    }
  }

  // ---------------------------------------------------------------------------
  // api_summary

  datatype Summary = Summary(
    totalTenders: nat,
    totalCompanies: nat,
    totalExpenses: real,
    totalTenderValue: real,
    totalPaid: real,
    totalProfit: real,
    pending: nat,
    partiallyPaid: nat,
    paid: nat)

  function StatusCount(tenders: seq<Tender>, status: string): nat
  {
    CountBy(tenders, ByStatus(status))
  }

  /** api_summary: the table sizes, the three money totals with the profit
      as value less expenses, and the status counts, which never add up to
      more tenders than there are. */
  function ApiSummary(companies: seq<Company>, tenders: seq<Tender>, expenses: seq<Expense>,
                      payments: seq<Payment>): (r: Summary)
    ensures r.totalTenders == |tenders| && r.totalCompanies == |companies|
    ensures r.totalProfit + r.totalExpenses == r.totalTenderValue
    ensures r.pending + r.partiallyPaid + r.paid <= r.totalTenders
  {
    StatusCountsSum(tenders);
    var te := SumBy(expenses, ExpenseAmount);
    var tv := SumBy(tenders, TenderValue);
    Summary(|tenders|, |companies|, te, tv, SumBy(payments, PaymentAmount), tv - te,
            StatusCount(tenders, Pending), StatusCount(tenders, PartiallyPaid), StatusCount(tenders, Paid))
  }

  predicate KnownStatus(t: Tender)
  {
    t.paymentStatus == Pending || t.paymentStatus == PartiallyPaid || t.paymentStatus == Paid
  }

  lemma {:induction false} StatusCountsSum(tenders: seq<Tender>)
    ensures StatusCount(tenders, Pending) + StatusCount(tenders, PartiallyPaid) + StatusCount(tenders, Paid) ==
      CountBy(tenders, KnownStatus)
    decreases |tenders|
  {
    if tenders != [] { StatusCountsSum(tenders[1..]); }
  }

  /** The three status counts partition the tenders exactly when every tender
      is in one of the three payment states; otherwise they fall short. */
  lemma StatusCountsPartition(companies: seq<Company>, tenders: seq<Tender>, expenses: seq<Expense>,
                              payments: seq<Payment>)
    ensures var s := ApiSummary(companies, tenders, expenses, payments);
      s.pending + s.partiallyPaid + s.paid <= s.totalTenders &&
      (s.pending + s.partiallyPaid + s.paid == s.totalTenders <==>
       forall i :: 0 <= i < |tenders| ==> KnownStatus(tenders[i]))
  {
    StatusCountsSum(tenders);
    FilterLength(tenders, KnownStatus);
    if forall i :: 0 <= i < |tenders| ==> KnownStatus(tenders[i]) {
      FilterAll(tenders, KnownStatus);
    } else {
      var i :| 0 <= i < |tenders| && !KnownStatus(tenders[i]);
      FilterMissing(tenders, KnownStatus, i);
    }
  }

  /** With intact references, the dashboard's profit is the sum of the
      tenders' profits. */
  lemma SummaryProfitByTender(companies: seq<Company>, tenders: seq<Tender>, expenses: seq<Expense>,
                              payments: seq<Payment>)
    requires Integrity(tenders, expenses, payments)
    ensures ApiSummary(companies, tenders, expenses, payments).totalProfit ==
      SumBy(tenders, t => Profit(t, expenses))
  {
    var always := (t: Tender) => true;
    GroupedExpenses(tenders, expenses, always);
    FilterAll(tenders, always);
    forall e | e in expenses ensures WeightIfTender(tenders, always, e) == e.amount {
      var k :| 0 <= k < |tenders| && tenders[k].id == e.tenderId;
    }
    SumByExt(expenses, e => WeightIfTender(tenders, always, e), ExpenseAmount);
    SumByAdd(tenders, t => Profit(t, expenses), t => TotalExpenses(t, expenses), TenderValue);
  }

  // ---------------------------------------------------------------------------
  // api_expenses

  datatype ExpenseRow = ExpenseRow(
    id: int,
    tenderId: Option<int>,
    tender: string,
    category: string,
    description: string,
    amount: real,
    date: string)

  /** The expense's tender as "<tender number> - <company name>", or the empty
      text of the view's last branch when the expense has no tender. A tender
      always has a company here, so the view's middle branch does not arise. */
  function TenderDisplay(t: Option<Tender>): string
  {
    if t.Some? then t.value.tenderNo + " - " + t.value.company.name else ""
  }

  function ExpenseRowOf(e: Expense, tenders: seq<Tender>): ExpenseRow
  {
    var t := TenderById(tenders, e.tenderId);
    ExpenseRow(e.id, if t.Some? then Some(t.value.id) else None, TenderDisplay(t), e.category,
               if e.description.Some? then e.description.value else "", e.amount, IsoFormat(e.date))
  }

  /** The most recent 1000 expenses: the first 1000 of the date-ordered rows. */
  const FeedLimit := 1000

  /** Appends f of each of the first n elements, in order: the `for` loop
      that builds the entry list. */
  method MapFirst<A, B>(xs: seq<A>, n: nat, f: A -> B) returns (ys: seq<B>)
    requires n <= |xs|
    ensures |ys| == n
    ensures forall j :: 0 <= j < n ==> ys[j] == f(xs[j])
  {
    ys := [];
    var i := 0;
    while i < n
      invariant 0 <= i <= n && |ys| == i
      invariant forall j :: 0 <= j < i ==> ys[j] == f(xs[j])
    {
      ys := ys + [f(xs[i])];
      i := i + 1;
    }
  }

  /** api_expenses over the expense rows in the query's order: the first
      1000, each turned into its entry. Every expense has a tender in the
      database, so every entry names its tender. */
  method ApiExpenses(expenses: seq<Expense>, tenders: seq<Tender>) returns (rows: seq<ExpenseRow>)
    requires Integrity(tenders, expenses, [])
    ensures |rows| == if |expenses| < FeedLimit then |expenses| else FeedLimit
    ensures forall j :: 0 <= j < |rows| ==> rows[j] == ExpenseRowOf(expenses[j], tenders)
    ensures forall j :: 0 <= j < |rows| ==>
              rows[j].tenderId == Some(expenses[j].tenderId) && rows[j].tender != ""
  {
    var n := if |expenses| < FeedLimit then |expenses| else FeedLimit;
    rows := MapFirst(expenses, n, (e: Expense) => ExpenseRowOf(e, tenders));
    forall j | 0 <= j < |rows|
      ensures rows[j].tenderId == Some(expenses[j].tenderId) && rows[j].tender != ""
    {
      assert expenses[j] in expenses;
      ExpenseRowFacts(expenses[j], tenders);
    }
  }

  /** An entry names its tender exactly when the tender exists, and then as
      "<tender number> - <company name>" of the tender in the table with that
      key; it shows a missing description as empty text, and its date reads
      back as the expense's date. */
  lemma ExpenseRowFacts(e: Expense, tenders: seq<Tender>)
    ensures var r := ExpenseRowOf(e, tenders);
      (r.tender == "" <==> !HasTender(tenders, e.tenderId)) &&
      (r.tenderId == Some(e.tenderId) <==> HasTender(tenders, e.tenderId)) &&
      (HasTender(tenders, e.tenderId) ==>
         exists k :: 0 <= k < |tenders| && tenders[k].id == e.tenderId &&
                     r.tender == tenders[k].tenderNo + " - " + tenders[k].company.name) &&
      (HasTender(tenders, e.tenderId) ==> IsPrefix(TenderById(tenders, e.tenderId).value.tenderNo + " - ", r.tender)) &&
      (r.description == "" <==> e.description.None? || e.description.value == "") &&
      ParseIso(r.date) == Some(e.date)
  {
    var t := TenderById(tenders, e.tenderId);
    if HasTender(tenders, e.tenderId) {
      var k :| 0 <= k < |tenders| && tenders[k].id == e.tenderId;
      var d := TenderDisplay(t);
      var j :| 0 <= j < |tenders| && tenders[j] == t.value;
      assert tenders[j].id == e.tenderId && d == tenders[j].tenderNo + " - " + tenders[j].company.name;
      assert |d| >= 3;
      assert d[..|t.value.tenderNo + " - "|] == t.value.tenderNo + " - ";
    }
    IsoRoundTrip(e.date);
  }

  // ---------------------------------------------------------------------------
  // expense_list total

  function ByTenderId(id: int): Expense -> bool { (e: Expense) => e.tenderId == id }

  /** The total of the listed expenses, after the optional company and tender filters. */
  function ExpenseListTotal(tenders: seq<Tender>, expenses: seq<Expense>, companyId: Option<int>,
                            tenderId: Option<int>): (r: real)
    ensures companyId.None? && tenderId.None? ==> r == SumBy(expenses, ExpenseAmount)
    ensures (forall e :: e in expenses ==> e.amount >= 0.0) ==> r >= 0.0
    ensures tenderId.Some? && (forall e :: e in expenses ==> e.tenderId != tenderId.value) ==> r == 0.0
  {
    var qs1 := if companyId.Some? then
      Filter(expenses, (e: Expense) => CompanyOfTender(tenders, e.tenderId) == Some(companyId.value))
      else expenses;
    var qs2 := if tenderId.Some? then Filter(qs1, ByTenderId(tenderId.value)) else qs1;
    SumByNonNegative(qs2, ExpenseAmount);
    assert qs2 != [] ==> qs2[0] in qs2;
    SumBy(qs2, ExpenseAmount)
  }

  /** Unfiltered, the total is every expense, as on the dashboard. */
  lemma ExpenseListAll(companies: seq<Company>, tenders: seq<Tender>, expenses: seq<Expense>,
                       payments: seq<Payment>)
    ensures ExpenseListTotal(tenders, expenses, None, None) ==
      ApiSummary(companies, tenders, expenses, payments).totalExpenses
  {
  }

  /** Filtered by a tender, the total is that tender's total expenses; by a
      company, it is the company's expense series entry. */
  lemma ExpenseListOneFilter(t: Tender, c: Company, tenders: seq<Tender>, expenses: seq<Expense>)
    ensures ExpenseListTotal(tenders, expenses, None, Some(t.id)) == TotalExpenses(t, expenses)
    ensures ExpenseListTotal(tenders, expenses, Some(c.id), None) == CompanyExpenses(c, tenders, expenses)
  {
    FilterExt(expenses, ByTenderId(t.id), (e: Expense) => e.tenderId == t.id);
  }

  /** Filtered by both, the total is the tender's total expenses when the
      tender belongs to the company, and 0 otherwise. */
  lemma ExpenseListBothFilters(t: Tender, tenders: seq<Tender>, expenses: seq<Expense>, companyId: int)
    requires Integrity(tenders, expenses, []) && t in tenders
    ensures ExpenseListTotal(tenders, expenses, Some(companyId), Some(t.id)) ==
      if t.company.id == companyId then TotalExpenses(t, expenses) else 0.0
  {
    var inCompany := (e: Expense) => CompanyOfTender(tenders, e.tenderId) == Some(companyId);
    var both := (e: Expense) => inCompany(e) && e.tenderId == t.id;
    FilterFilter(expenses, inCompany, ByTenderId(t.id), both);
    SameTender(tenders, t);
    if t.company.id == companyId {
      FilterExt(expenses, both, (e: Expense) => e.tenderId == t.id);
    } else {
      FilterExt(expenses, both, e => false);
      FilterNothing(expenses, e => false);
    }
  }

  /** With unique keys, looking up a listed tender's id finds that tender. */
  lemma SameTender(tenders: seq<Tender>, t: Tender)
    requires UniqueTenderIds(tenders) && t in tenders
    ensures TenderById(tenders, t.id) == Some(t)
  {
    var k :| 0 <= k < |tenders| && tenders[k] == t;
    var r := TenderById(tenders, t.id).value;
    var j :| 0 <= j < |tenders| && tenders[j] == r;
    assert j == k;
  }
}
