/** The projections dashboard: resolving the company of a new record,
    creating it, the active listing with its filters, the WON and LOST sums,
    the WON sums per company, the detail lookup and archiving. */
module ProjectionViews {
  import opened Wrappers
  import opened Text
  import opened Sums
  import opened Sorting
  import opened Dates
  import opened ProjectionModels

  const NewCompany := "__new__"

  // ---------------------------------------------------------------------
  // Creating a record (POST)
  // ---------------------------------------------------------------------

  /** The company a new record is filed under. Choosing "__new__" takes the
      typed name with surrounding whitespace removed, and refuses a blank one;
      any other non-empty choice is taken as it is. */
  function ResolveCompany(companySelect: Option<string>, companyNew: Option<string>): (r: Result<string>)
    ensures companySelect == Some(NewCompany) ==>
      (r.Err? <==> Strip(if companyNew.Some? then companyNew.value else "") == [])
    ensures companySelect == Some(NewCompany) && r.Ok? ==>
      r.value == Strip(companyNew.value)
    ensures companySelect != Some(NewCompany) ==>
      (r.Err? <==> companySelect.None? || companySelect.value == [])
    ensures companySelect != Some(NewCompany) && r.Ok? ==> r.value == companySelect.value
  {
    var typed := Strip(if companyNew.Some? then companyNew.value else "");
    if companySelect == Some(NewCompany) then
      if typed == [] then Err("Please enter a new company name.") else Ok(typed)
    else if companySelect.None? || companySelect.value == [] then
      Err("Please select a company.")
    else Ok(companySelect.value)
  }

  /** A resolved company name is never empty, and a typed one neither starts
      nor ends with whitespace. */
  lemma ResolvedCompanyShape(companySelect: Option<string>, companyNew: Option<string>)
    requires ResolveCompany(companySelect, companyNew).Ok?
    ensures ResolveCompany(companySelect, companyNew).value != []
    ensures companySelect == Some(NewCompany) ==>
      var c := ResolveCompany(companySelect, companyNew).value;
      !IsSpace(c[0]) && !IsSpace(c[|c| - 1])
  {
    if companySelect == Some(NewCompany) {
      var typed := Strip(companyNew.value);
      assert ResolveCompany(companySelect, companyNew) == Ok(typed);
      StripEnds(companyNew.value);
    }
  }

  /** The form fields of a new record, as posted; a missing field is None. */
  datatype ProjectForm = ProjectForm(
    companySelect: Option<string>,
    companyNew: Option<string>,
    projectDate: Option<string>,
    title: Option<string>,
    description: Option<string>,
    customer: Option<string>,
    amount: Option<string>,
    status: Option<string>)

  datatype CreateOutcome = Created(id: int) | Rejected(message: string) | ServerError

  /** The date of the form, when it is an ISO calendar date. */
  function FormDate(form: ProjectForm): (r: Option<CalendarDate>)
    ensures r.Some? <==> form.projectDate.Some? && ParseIso(form.projectDate.value).Some?
    ensures r.Some? ==> Some(r.value) == ParseIso(form.projectDate.value)
  {
    if form.projectDate.None? then None
    else match ParseIso(form.projectDate.value)
      case None => None
      case Some(d) => Some(d)
  }

  /** The posted title, description, customer, status and amount, or None when
      one is missing or the amount is not a decimal, so that the insert fails. */
  function FormFields(form: ProjectForm): (r: Option<(string, string, string, string, real)>)
    ensures r.Some? <==>
              form.title.Some? && form.description.Some? && form.customer.Some? &&
              form.status.Some? && form.amount.Some? && ParseDecimal(form.amount.value).Some?
  {
    if form.title.None? || form.description.None? || form.customer.None? || form.status.None?
       || form.amount.None? then None
    else match ParseDecimal(form.amount.value)
      case None => None
      case Some(amount) => Some((form.title.value, form.description.value, form.customer.value,
                                 form.status.value, amount))
  }

  /** The outcome of the three steps of the POST: resolving the company, reading
      the date, and inserting the row. */
  function CreateFrom(company: Result<string>, date: Option<CalendarDate>,
                      fields: Option<(string, string, string, string, real)>, id: int)
    : Result<Option<ProjectRow>>
  {
    match company
    case Err(m) => Err(m)
    case Ok(c) =>
      match date
      case None => Err("Invalid project date.")
      case Some(d) =>
        match fields
        case None => Ok(None)
        case Some((title, description, customer, status, amount)) =>
          Ok(Some(ProjectRow(id, title, description, c, customer, amount, d, status, true, d.year)))
  }

  /** What the store sees the form ask for: a refusal, a failed insert, or the row to add. */
  function CreateCheck(form: ProjectForm, id: int): (r: Result<Option<ProjectRow>>)
    ensures r.Err? <==> ResolveCompany(form.companySelect, form.companyNew).Err? || FormDate(form).None?
  {
    CreateFrom(ResolveCompany(form.companySelect, form.companyNew), FormDate(form), FormFields(form), id)
  }

  /** The row a form adds is active, keyed by the next key, carries its date's
      year, and holds the resolved company, the parsed date and amount and the
      posted text fields. */
  lemma CreatedRow(form: ProjectForm, id: int)
    requires CreateCheck(form, id).Ok? && CreateCheck(form, id).value.Some?
    ensures var row := CreateCheck(form, id).value.value;
      row.id == id && row.isActive && row.year == row.projectDate.year &&
      ResolveCompany(form.companySelect, form.companyNew) == Ok(row.company) &&
      Some(row.projectDate) == FormDate(form) &&
      form.amount.Some? && Some(row.amount) == ParseDecimal(form.amount.value) &&
      Some(row.title) == form.title && Some(row.description) == form.description &&
      Some(row.customer) == form.customer && Some(row.status) == form.status
  {
  }

  /** What the POST does to the table: a refused form gives its message and a
      failed insert a server error, both leaving the table as it was; an accepted
      form adds its row under the next key. */
  function CreateEffect(check: Result<Option<ProjectRow>>, rows: seq<ProjectRow>, nextId: int)
    : (r: (CreateOutcome, seq<ProjectRow>, int))
    ensures r.0.Created? <==> check.Ok? && check.value.Some?
    ensures r.0.Created? ==> r.0 == Created(nextId) && r.1 == rows + [check.value.value] && r.2 == nextId + 1
    ensures !r.0.Created? ==> r.1 == rows && r.2 == nextId
  {
    match check
    case Err(message) => (Rejected(message), rows, nextId)
    case Ok(None) => (ServerError, rows, nextId)
    case Ok(Some(row)) => (Created(nextId), rows + [row], nextId + 1)
  }

  /** The steps of the POST before anything is stored: the company is resolved,
      then the date is read, then the record is built and saved with its year. */
  method ReadForm(form: ProjectForm, id: int) returns (r: Result<Option<ProjectRow>>)
    ensures r == CreateCheck(form, id)
    ensures r.Ok? && r.value.Some? ==>
              r.value.value.id == id && r.value.value.isActive &&
              r.value.value.year == r.value.value.projectDate.year
  {
    var company := ResolveCompany(form.companySelect, form.companyNew);
    if company.Err? {
      return Err(company.message);
    }
    var date := FormDate(form);
    if date.None? {
      return Err("Invalid project date.");
    }
    var fields := FormFields(form);
    if fields.None? {
      return Ok(None);
    }
    var (title, description, customer, status, amount) := fields.value;
    var row := CreateRecord(id, title, description, company.value, customer, amount, date.value, status);
    return Ok(Some(row));
  }

  /** The table of project records. */
  class ProjectStore {
    var rows: seq<ProjectRow>
    var nextId: int

    /** Primary keys are unique and below the next key, and every stored
        year is the year of the stored date. */
    predicate Valid()
      reads this
    {
      TableValid(rows, nextId)
    }

    constructor ()
      ensures rows == [] && nextId == 1 && Valid()
    {
      rows := [];
      nextId := 1;
    }

    /** The POST branch of projection_dashboard: a refused form or a failed
        insert adds nothing; otherwise one active row, saved with its year,
        is added under the next key. */
    method Create(form: ProjectForm) returns (outcome: CreateOutcome)
      modifies this
      ensures (outcome, rows, nextId) == CreateEffect(CreateCheck(form, old(nextId)), old(rows), old(nextId))
      ensures old(Valid()) ==> Valid()
    {
      var check := ReadForm(form, nextId);
      if Valid() { CreateEffectKeepsValid(check, rows, nextId); }
      outcome := Store(check);
    }

    /** The end of the POST: a refusal or a failed insert answers without
        writing; an accepted form's row is saved under the next key. */
    method Store(check: Result<Option<ProjectRow>>) returns (outcome: CreateOutcome)
      modifies this
      ensures (outcome, rows, nextId) == CreateEffect(check, old(rows), old(nextId))
    {
      match check
      case Err(message) =>
        outcome := Rejected(message);
      case Ok(None) =>
        outcome := ServerError;
      case Ok(Some(row)) =>
        rows := rows + [row];
        outcome := Created(nextId);
        nextId := nextId + 1;
    }

    /** archive_project: a missing key changes nothing; otherwise only the
        record's active flag is cleared. */
    method Archive(pk: int) returns (found: bool)
      modifies this`rows
      ensures found <==> IndexOfId(old(rows), pk).Some?
      ensures rows == Archived(old(rows), pk)
      ensures old(Valid()) ==> Valid()
    {
      var k := 0;
      while k < |rows| && rows[k].id != pk
        invariant 0 <= k <= |rows|
        invariant forall i :: 0 <= i < k ==> rows[i].id != pk
      {
        k := k + 1;
      }
      if k == |rows| {
        return false;
      }
      var record := new ProjectRecord.FromRow(rows[k]);
      record.isActive := false;
      record.Save();
      assert IndexOfId(rows, pk) == Some(k);
      if Valid() { ArchiveKeepsValid(rows, nextId, pk); }
      rows := rows[k := rows[k].(isActive := record.isActive)];
      found := true;
    }
  }

  /** Primary keys are unique and below the next key, and every stored year is
      the year of the stored date. */
  predicate TableValid(rows: seq<ProjectRow>, nextId: int)
  {
    (forall i, j :: 0 <= i < j < |rows| ==> rows[i].id != rows[j].id) &&
    (forall i :: 0 <= i < |rows| ==> rows[i].id < nextId && rows[i].year == rows[i].projectDate.year)
  }

  /** Adding a row under the next key, with its date's year, keeps the table valid. */
  lemma AppendKeepsValid(rows: seq<ProjectRow>, nextId: int, row: ProjectRow)
    requires TableValid(rows, nextId) && row.id == nextId && row.year == row.projectDate.year
    ensures TableValid(rows + [row], nextId + 1)
  {
    var r := rows + [row];
    forall i, j | 0 <= i < j < |r|
      ensures r[i].id != r[j].id
    {
      if j == |rows| { assert r[i] == rows[i]; }
    }
  }

  /** A POST keeps the table valid when the row it adds is keyed by the next
      key and carries its date's year. */
  lemma CreateEffectKeepsValid(check: Result<Option<ProjectRow>>, rows: seq<ProjectRow>, nextId: int)
    requires TableValid(rows, nextId)
    requires check.Ok? && check.value.Some? ==>
               check.value.value.id == nextId && check.value.value.year == check.value.value.projectDate.year
    ensures TableValid(CreateEffect(check, rows, nextId).1, CreateEffect(check, rows, nextId).2)
  {
    if check.Ok? && check.value.Some? {
      AppendKeepsValid(rows, nextId, check.value.value);
    }
  }

  /** Clearing an active flag keeps the table valid. */
  lemma ArchiveKeepsValid(rows: seq<ProjectRow>, nextId: int, pk: int)
    requires TableValid(rows, nextId)
    ensures TableValid(Archived(rows, pk), nextId)
  {
    ArchiveChangesOnlyActive(rows, pk);
  }

  /** The position of the record with key pk. */
  function IndexOfId(rows: seq<ProjectRow>, pk: int): (r: Option<nat>)
    ensures r.Some? ==> r.value < |rows| && rows[r.value].id == pk &&
                        forall i :: 0 <= i < r.value ==> rows[i].id != pk
    ensures r.None? ==> forall i :: 0 <= i < |rows| ==> rows[i].id != pk
    decreases |rows|
  {
    if rows == [] then None
    else if rows[0].id == pk then Some(0)
    else match IndexOfId(rows[1..], pk)
      case None => None
      case Some(i) => Some(i + 1)
  }

  /** The table after archiving key pk: the same records under the same keys,
      in the same places. */
  function Archived(rows: seq<ProjectRow>, pk: int): (r: seq<ProjectRow>)
    ensures |r| == |rows|
    ensures forall i :: 0 <= i < |r| ==> r[i].id == rows[i].id
  {
    match IndexOfId(rows, pk)
    case None => rows
    case Some(k) => rows[k := rows[k].(isActive := false)]
  }

  /** Archiving keeps every record and every field other than the active flag,
      and clears that flag on the archived record only. */
  lemma ArchiveChangesOnlyActive(rows: seq<ProjectRow>, pk: int)
    ensures |Archived(rows, pk)| == |rows|
    ensures forall i :: 0 <= i < |rows| ==>
      Archived(rows, pk)[i] == rows[i].(isActive := Archived(rows, pk)[i].isActive)
    ensures forall i :: 0 <= i < |rows| && rows[i].id != pk ==> Archived(rows, pk)[i] == rows[i]
    ensures IndexOfId(rows, pk).Some? ==> !Archived(rows, pk)[IndexOfId(rows, pk).value].isActive
  {
  }

  /** Archiving twice is archiving once. */
  lemma ArchiveIdempotent(rows: seq<ProjectRow>, pk: int)
    ensures Archived(Archived(rows, pk), pk) == Archived(rows, pk)
  {
    if IndexOfId(rows, pk).Some? {
      var k := IndexOfId(rows, pk).value;
      var a := Archived(rows, pk);
      assert forall i :: 0 <= i < |a| ==> a[i].id == rows[i].id;
      assert IndexOfId(a, pk) == Some(k) by { IndexOfIdUnchanged(rows, a, pk); }
    }
  }

  /** The index of a key depends only on the keys. */
  lemma {:induction false} IndexOfIdUnchanged(rows: seq<ProjectRow>, other: seq<ProjectRow>, pk: int)
    requires |rows| == |other| && forall i :: 0 <= i < |rows| ==> rows[i].id == other[i].id
    ensures IndexOfId(other, pk) == IndexOfId(rows, pk)
    decreases |rows|
  {
    if rows != [] && rows[0].id != pk {
      IndexOfIdUnchanged(rows[1..], other[1..], pk);
    }
  }

  // ---------------------------------------------------------------------
  // Detail (project_detail)
  // ---------------------------------------------------------------------

  /** The active record with key pk, if there is one. */
  function ProjectDetail(rows: seq<ProjectRow>, pk: int): (r: Option<ProjectRow>)
    ensures r.Some? ==> r.value in rows && r.value.id == pk && r.value.isActive
    ensures r.None? ==> forall x :: x in rows && x.id == pk ==> !x.isActive
    decreases |rows|
  {
    if rows == [] then None
    else if rows[0].id == pk && rows[0].isActive then Some(rows[0])
    else ProjectDetail(rows[1..], pk)
  }

  // ---------------------------------------------------------------------
  // Listing and filters (GET)
  // ---------------------------------------------------------------------

  function DateKey(r: ProjectRow): real { Ordinal(r.projectDate) as real }

  predicate IsActive(r: ProjectRow) { r.isActive }

  /** The active records, newest date first. */
  function ActiveListing(rows: seq<ProjectRow>): (r: seq<ProjectRow>)
    ensures forall x :: x in r <==> x in rows && x.isActive
    ensures DescendingBy(r, DateKey)
  {
    FilterMembers(rows, IsActive);
    SortDescMembers(Filter(rows, IsActive), DateKey);
    SortDesc(Filter(rows, IsActive), DateKey)
  }

  /** The dashboard's query string; a missing or empty parameter filters nothing. */
  datatype DashboardQuery = DashboardQuery(company: Option<string>, status: Option<string>, year: Option<string>)

  predicate Given(p: Option<string>) { p.Some? && p.value != [] }

  function CompanyIs(c: string): ProjectRow -> bool { (r: ProjectRow) => r.company == c }
  function StatusIs(s: string): ProjectRow -> bool { (r: ProjectRow) => r.status == s }
  function YearIs(y: int): ProjectRow -> bool { (r: ProjectRow) => r.year == y }

  /** The year parameter as a number; None when not given, an error when it is not a number. */
  function YearParam(q: DashboardQuery): (r: Result<Option<int>>)
    ensures r.Err? <==> Given(q.year) && ParseInt(q.year.value).None?
    ensures r.Ok? ==> (r.value.Some? <==> Given(q.year))
    ensures r.Ok? && r.value.Some? ==> ParseInt(q.year.value) == Some(r.value.value)
  {
    if !Given(q.year) then Ok(None)
    else match ParseInt(q.year.value)
      case None => Err("year is not a number")
      case Some(y) => Ok(Some(y))
  }

  /** The listing with each given filter applied in turn: active records of the
      table only. */
  function FilteredRecords(rows: seq<ProjectRow>, q: DashboardQuery, year: Option<int>): (r: seq<ProjectRow>)
    ensures forall x :: x in r ==> x in rows && x.isActive
  {
    var l := ActiveListing(rows);
    var l1 := if Given(q.company) then Filter(l, CompanyIs(q.company.value)) else l;
    var l2 := if Given(q.status) then Filter(l1, StatusIs(q.status.value)) else l1;
    if year.Some? then Filter(l2, YearIs(year.value)) else l2
  }

  /** A record passes every given filter. */
  predicate Passes(r: ProjectRow, q: DashboardQuery, year: Option<int>)
  {
    r.isActive &&
    (Given(q.company) ==> r.company == q.company.value) &&
    (Given(q.status) ==> r.status == q.status.value) &&
    (year.Some? ==> r.year == year.value)
  }

  /** A filter applied only when given keeps what passes it, or everything. */
  lemma FilterWhenGiven(xs: seq<ProjectRow>, given: bool, p: ProjectRow -> bool)
    ensures forall r :: r in (if given then Filter(xs, p) else xs) <==> r in xs && (given ==> p(r))
  {
    if given { FilterMembers(xs, p); }
  }

  /** The listing holds exactly the active records that pass every given filter. */
  lemma FilteredRecordsConjunctive(rows: seq<ProjectRow>, q: DashboardQuery, year: Option<int>)
    ensures forall r :: r in FilteredRecords(rows, q, year) <==> r in rows && Passes(r, q, year)
  {
    var l := ActiveListing(rows);
    SortDescMembers(Filter(rows, IsActive), DateKey);
    FilterMembers(rows, IsActive);
    assert forall r :: r in l <==> r in rows && r.isActive;
    var l1 := if Given(q.company) then Filter(l, CompanyIs(q.company.value)) else l;
    FilterWhenGiven(l, Given(q.company), CompanyIs(if Given(q.company) then q.company.value else ""));
    assert forall r :: r in l1 <==> r in l && (Given(q.company) ==> r.company == q.company.value);
    var l2 := if Given(q.status) then Filter(l1, StatusIs(q.status.value)) else l1;
    FilterWhenGiven(l1, Given(q.status), StatusIs(if Given(q.status) then q.status.value else ""));
    assert forall r :: r in l2 <==> r in l1 && (Given(q.status) ==> r.status == q.status.value);
    FilterWhenGiven(l2, year.Some?, YearIs(if year.Some? then year.value else 0));
    assert FilteredRecords(rows, q, year) == if year.Some? then Filter(l2, YearIs(year.value)) else l2;
  }

  /** Records in descending date-key order run from the newest date to the oldest. */
  lemma DescendingDates(f: seq<ProjectRow>)
    requires DescendingBy(f, DateKey)
    ensures forall i, j :: 0 <= i < j < |f| ==> AtOrBefore(f[j].projectDate, f[i].projectDate)
  {
    forall i, j | 0 <= i < j < |f|
      ensures AtOrBefore(f[j].projectDate, f[i].projectDate)
    {
      assert DateKey(f[j]) <= DateKey(f[i]);
      OrdinalOrder(f[j].projectDate, f[i].projectDate);
    }
  }

  /** The listing runs from the newest date to the oldest. */
  lemma FilteredRecordsNewestFirst(rows: seq<ProjectRow>, q: DashboardQuery, year: Option<int>)
    ensures var l := FilteredRecords(rows, q, year);
      forall i, j :: 0 <= i < j < |l| ==> AtOrBefore(l[j].projectDate, l[i].projectDate)
  {
    var l := ActiveListing(rows);
    var l1, l2, l3 := l, l, l;
    if Given(q.company) { l1 := Filter(l, CompanyIs(q.company.value)); FilterKeepsOrder(l, CompanyIs(q.company.value), DateKey); }
    l2 := l1;
    if Given(q.status) { l2 := Filter(l1, StatusIs(q.status.value)); FilterKeepsOrder(l1, StatusIs(q.status.value), DateKey); }
    l3 := l2;
    if year.Some? { l3 := Filter(l2, YearIs(year.value)); FilterKeepsOrder(l2, YearIs(year.value), DateKey); }
    assert FilteredRecords(rows, q, year) == l3;
    DescendingDates(l3);
  }

  /** An archived record is neither listed nor shown in detail. */
  lemma ArchivedIsHidden(rows: seq<ProjectRow>, pk: int, q: DashboardQuery, year: Option<int>)
    requires forall i, j :: 0 <= i < j < |rows| ==> rows[i].id != rows[j].id
    ensures ProjectDetail(Archived(rows, pk), pk) == None
    ensures forall r :: r in FilteredRecords(Archived(rows, pk), q, year) ==> r.id != pk
  {
    var a := Archived(rows, pk);
    ArchiveChangesOnlyActive(rows, pk);
    forall x | x in a && x.id == pk
      ensures !x.isActive
    {
      var i :| 0 <= i < |a| && a[i] == x;
      var k := IndexOfId(rows, pk).value;
      assert rows[i].id == pk;
      assert i == k;
    }
    FilteredRecordsConjunctive(a, q, year);
  }

  // ---------------------------------------------------------------------
  // Aggregates
  // ---------------------------------------------------------------------

  function Amount(r: ProjectRow): real { r.amount }

  /** Sum of the amounts of the records with the given status; 0 when there
      are none, and never negative when no amount is. */
  function StatusTotal(records: seq<ProjectRow>, status: string): (r: real)
    ensures (forall x :: x in records ==> x.status != status) ==> r == 0.0
    ensures (forall x :: x in records ==> x.amount >= 0.0) ==> r >= 0.0
  {
    var f := Filter(records, StatusIs(status));
    SumByNonNegative(f, Amount);
    assert f != [] ==> f[0] in f;
    SumBy(f, Amount)
  }

  function AmountIfStatus(status: string): ProjectRow -> real
  {
    (r: ProjectRow) => if r.status == status then r.amount else 0.0
  }

  function WonOrLost(r: ProjectRow): bool { r.status == Won || r.status == Lost }

  /** The won and lost totals together are the sum over the records that are
      won or lost, and both are 0 without records. */
  lemma WonLostPartition(records: seq<ProjectRow>)
    ensures StatusTotal(records, Won) + StatusTotal(records, Lost) == SumBy(Filter(records, WonOrLost), Amount)
    ensures records == [] ==> StatusTotal(records, Won) == 0.0 && StatusTotal(records, Lost) == 0.0
  {
    SumByFilter(records, StatusIs(Won), Amount, AmountIfStatus(Won));
    SumByFilter(records, StatusIs(Lost), Amount, AmountIfStatus(Lost));
    var both := (r: ProjectRow) => if WonOrLost(r) then r.amount else 0.0;
    SumByFilter(records, WonOrLost, Amount, both);
    SumByAdd(records, AmountIfStatus(Won), AmountIfStatus(Lost), both);
  }

  /** A company and the sum of its won amounts. */
  datatype CompanyTotal = CompanyTotal(company: string, total: real)

  function Total(g: CompanyTotal): real { g.total }

  function HasCompany(c: string): CompanyTotal -> bool { (g: CompanyTotal) => g.company == c }

  function TotalIf(c: string): CompanyTotal -> real { (g: CompanyTotal) => if g.company == c then g.total else 0.0 }

  function AmountIf(c: string): ProjectRow -> real { (r: ProjectRow) => if r.company == c then r.amount else 0.0 }

  /** Adds an amount to a company's group, opening the group when there is none. */
  function AddTo(groups: seq<CompanyTotal>, company: string, amount: real): (r: seq<CompanyTotal>)
    ensures |groups| <= |r| <= |groups| + 1
    decreases |groups|
  {
    if groups == [] then [CompanyTotal(company, amount)]
    else if groups[0].company == company then [groups[0].(total := groups[0].total + amount)] + groups[1..]
    else [groups[0]] + AddTo(groups[1..], company, amount)
  }

  /** `.values("company").annotate(total=Sum("amount"))`: one group per company,
      so never more groups than rows, and none only without rows. */
  function Grouped(rows: seq<ProjectRow>): (r: seq<CompanyTotal>)
    ensures |r| <= |rows|
    ensures r == [] <==> rows == []
    decreases |rows|
  {
    if rows == [] then [] else AddTo(Grouped(rows[1..]), rows[0].company, rows[0].amount)
  }

  lemma {:induction false} AddToCount(groups: seq<CompanyTotal>, c: string, a: real, k: string)
    ensures CountBy(AddTo(groups, c, a), HasCompany(k)) ==
      if k == c && CountBy(groups, HasCompany(c)) == 0 then 1 else CountBy(groups, HasCompany(k))
    decreases |groups|
  {
    if groups != [] && groups[0].company != c {
      AddToCount(groups[1..], c, a, k);
      assert AddTo(groups, c, a)[1..] == AddTo(groups[1..], c, a);
    } else if groups != [] {
      assert AddTo(groups, c, a)[1..] == groups[1..];
    }
  }

  lemma {:induction false} AddToSum(groups: seq<CompanyTotal>, c: string, a: real, k: string)
    ensures SumBy(AddTo(groups, c, a), TotalIf(k)) == SumBy(groups, TotalIf(k)) + (if k == c then a else 0.0)
    ensures SumBy(AddTo(groups, c, a), Total) == SumBy(groups, Total) + a
    decreases |groups|
  {
    if groups != [] && groups[0].company != c {
      AddToSum(groups[1..], c, a, k);
      assert AddTo(groups, c, a)[1..] == AddTo(groups[1..], c, a);
    } else if groups != [] {
      assert AddTo(groups, c, a)[1..] == groups[1..];
    }
  }

  /** Each company of the input has exactly one group, and no other company has one. */
  lemma {:induction false} GroupedCount(rows: seq<ProjectRow>, k: string)
    ensures CountBy(Grouped(rows), HasCompany(k)) == if exists r :: r in rows && r.company == k then 1 else 0
    decreases |rows|
  {
    if rows != [] {
      GroupedCount(rows[1..], k);
      GroupedCount(rows[1..], rows[0].company);
      AddToCount(Grouped(rows[1..]), rows[0].company, rows[0].amount, k);
      assert forall r :: r in rows <==> r == rows[0] || r in rows[1..];
    }
  }

  /** A company's group total is the sum of its amounts, and the group totals
      together are the sum of all amounts. */
  lemma {:induction false} GroupedSums(rows: seq<ProjectRow>, k: string)
    ensures SumBy(Grouped(rows), TotalIf(k)) == SumBy(rows, AmountIf(k))
    ensures SumBy(Grouped(rows), Total) == SumBy(rows, Amount)
    decreases |rows|
  {
    if rows != [] {
      GroupedSums(rows[1..], k);
      AddToSum(Grouped(rows[1..]), rows[0].company, rows[0].amount, k);
    }
  }

  /** In groups with one entry per company, an entry's total is the sum for its company. */
  lemma {:induction false} SingleGroupTotal(groups: seq<CompanyTotal>, g: CompanyTotal)
    requires g in groups && CountBy(groups, HasCompany(g.company)) <= 1
    ensures SumBy(groups, TotalIf(g.company)) == g.total
    decreases |groups|
  {
    if groups[0] == g {
      forall x | x in groups[1..]
        ensures TotalIf(g.company)(x) == 0.0
      {
        if x.company == g.company {
          var j :| 0 <= j < |groups[1..]| && groups[1..][j] == x;
          CountByMember(groups[1..], HasCompany(g.company), j);
        }
      }
      SumByZero(groups[1..], TotalIf(g.company));
    } else {
      if groups[0].company == g.company {
        var j :| 0 <= j < |groups[1..]| && groups[1..][j] == g;
        CountByMember(groups[1..], HasCompany(g.company), j);
      }
      SingleGroupTotal(groups[1..], g);
    }
  }

  /** An element that satisfies p is counted. */
  lemma {:induction false} CountByMember<T>(xs: seq<T>, p: T -> bool, j: nat)
    requires j < |xs| && p(xs[j])
    ensures CountBy(xs, p) >= 1
    decreases |xs|
  {
    if j > 0 { CountByMember(xs[1..], p, j - 1); }
  }

  /** company_totals: the won records grouped by company, largest total first. */
  function CompanyTotals(records: seq<ProjectRow>): (r: seq<CompanyTotal>)
    ensures DescendingBy(r, Total)
    ensures |r| <= |records|
  {
    var g := Grouped(Filter(records, StatusIs(Won)));
    var r := SortDesc(g, Total);
    assert |r| == |multiset(r)| == |multiset(g)| == |g|;
    r
  }

  /** Each company with a won record has exactly one entry and no other company
      has one; each entry's total is the sum of that company's won amounts; the
      entries run from the largest total down; and together they make total_won. */
  lemma CompanyTotalsFacts(records: seq<ProjectRow>)
    ensures var ct := CompanyTotals(records);
      DescendingBy(ct, Total) &&
      (forall c :: CountBy(ct, HasCompany(c)) ==
                   if exists r :: r in records && r.status == Won && r.company == c then 1 else 0) &&
      (forall g :: g in ct ==>
         g.total == SumBy(Filter(Filter(records, StatusIs(Won)), CompanyIs(g.company)), Amount)) &&
      SumBy(ct, Total) == StatusTotal(records, Won)
  {
    var won := Filter(records, StatusIs(Won));
    var grouped := Grouped(won);
    var ct := CompanyTotals(records);
    FilterMembers(records, StatusIs(Won));
    forall c
      ensures CountBy(ct, HasCompany(c)) ==
              if exists r :: r in records && r.status == Won && r.company == c then 1 else 0
    {
      CountByPermutation(ct, grouped, HasCompany(c));
      GroupedCount(won, c);
    }
    forall g | g in ct
      ensures g.total == SumBy(Filter(won, CompanyIs(g.company)), Amount)
    {
      SortDescMembers(grouped, Total);
      CountByPermutation(ct, grouped, HasCompany(g.company));
      GroupedCount(won, g.company);
      SingleGroupTotal(grouped, g);
      GroupedSums(won, g.company);
      SumByFilter(won, CompanyIs(g.company), Amount, AmountIf(g.company));
    }
    GroupedSums(won, "");
    SumByPermutation(ct, grouped, Total);
  }

  // ---------------------------------------------------------------------
  // The dashboard (GET)
  // ---------------------------------------------------------------------

  datatype Dashboard = Dashboard(
    records: seq<ProjectRow>,
    companyTotals: seq<CompanyTotal>,
    totalWon: real,
    totalLost: real)

  /** The GET branch of projection_dashboard; a year that is not a number fails the request. */
  function ProjectionDashboard(rows: seq<ProjectRow>, q: DashboardQuery): (r: Result<Dashboard>)
    ensures r.Err? <==> YearParam(q).Err?
    ensures r.Ok? ==>
      r.value.records == FilteredRecords(rows, q, YearParam(q).value) &&
      r.value.totalWon == StatusTotal(r.value.records, Won) &&
      r.value.totalLost == StatusTotal(r.value.records, Lost) &&
      r.value.companyTotals == CompanyTotals(r.value.records)
  {
    match YearParam(q)
    case Err(m) => Err(m)
    case Ok(year) =>
      var records := FilteredRecords(rows, q, year);
      Ok(Dashboard(records, CompanyTotals(records), StatusTotal(records, Won), StatusTotal(records, Lost)))
  }
}
