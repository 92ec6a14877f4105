/** Project records for sales projections: a project won, lost or pending
    for a company, with an amount and a date. Saving a record derives its
    year from its date. */
module ProjectionModels {
  import opened Wrappers
  import opened Dates

  const Won := "WON"
  const Lost := "LOST"
  const PendingStatus := "PENDING"

  /** A stored record, as the table holds it. */
  datatype ProjectRow = ProjectRow(
    id: int,
    title: string,
    description: string,
    company: string,
    customer: string,
    amount: real,
    projectDate: CalendarDate,
    status: string,
    isActive: bool,
    year: int)

  /** The year a save leaves: the date's year when there is a date, the
      previous year otherwise. */
  function SavedYear(projectDate: Option<CalendarDate>, year: int): (y: int)
    ensures projectDate.Some? ==> y == projectDate.value.year
    ensures projectDate.None? ==> y == year
  {
    if projectDate.Some? then projectDate.value.year else year
  }

  /** Saving twice without changing the date leaves the year as the first save set it. */
  lemma SavedYearIdempotent(projectDate: Option<CalendarDate>, year: int)
    ensures SavedYear(projectDate, SavedYear(projectDate, year)) == SavedYear(projectDate, year)
  {
  }

  /** A record in memory. */
  class ProjectRecord {
    var id: int
    var title: string
    var description: string
    var company: string
    var customer: string
    var amount: real
    var projectDate: Option<CalendarDate>
    var status: string
    var isActive: bool
    var year: int

    constructor (id: int, title: string, description: string, company: string, customer: string,
                 amount: real, projectDate: Option<CalendarDate>, status: string)
      ensures this.id == id && this.title == title && this.description == description
      ensures this.company == company && this.customer == customer && this.amount == amount
      ensures this.projectDate == projectDate && this.status == status
      ensures isActive && year == 0
    {
      this.id := id;
      this.title := title;
      this.description := description;
      this.company := company;
      this.customer := customer;
      this.amount := amount;
      this.projectDate := projectDate;
      this.status := status;
      isActive := true;
      year := 0;
    }

    /** Loads a stored row. */
    constructor FromRow(row: ProjectRow)
      ensures Row() == Some(row)
    {
      id := row.id;
      title := row.title;
      description := row.description;
      company := row.company;
      customer := row.customer;
      amount := row.amount;
      projectDate := Some(row.projectDate);
      status := row.status;
      isActive := row.isActive;
      year := row.year;
    }

    /** The row this record is stored as; a record without a date cannot be stored. */
    function Row(): Option<ProjectRow>
      reads this
    {
      if projectDate.Some? then
        Some(ProjectRow(id, title, description, company, customer, amount, projectDate.value, status, isActive, year))
      else None
    }

    /** ProjectRecord.save: sets the year from the date when there is one;
        no other field changes. */
    method Save()
      modifies this`year
      ensures year == SavedYear(projectDate, old(year))
    {
      if projectDate.Some? {
        year := projectDate.value.year;
      }
    }
  }

  /** `ProjectRecord.objects.create(...)`: builds the record, saves it and
      returns the row stored, active and carrying its date's year. */
  method CreateRecord(id: int, title: string, description: string, company: string, customer: string,
                      amount: real, projectDate: CalendarDate, status: string) returns (row: ProjectRow)
    ensures row == ProjectRow(id, title, description, company, customer, amount, projectDate, status,
                              true, projectDate.year)
  {
    var record := new ProjectRecord(id, title, description, company, customer, amount, Some(projectDate), status);
    record.Save();
    var stored := record.Row();
    row := stored.value;
  }
}
