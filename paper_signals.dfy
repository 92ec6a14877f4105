/** Numbering of paper documents. Just before a document is first stored, an
    empty number is filled in as `SLUG/YEAR/NNNN`: the company slug in upper
    case, the current year, and one more than the number of documents the
    company already has, zero-padded to four digits. */
module PaperSignals {
  import opened Wrappers
  import opened Text
  import opened Sums
  import opened PaperModels

  /** A stored document row, as far as numbering looks at it. */
  datatype EntryRow = EntryRow(companySlug: string, paperNumber: string)

  /** How many stored documents belong to the company, in every year. */
  function CompanyCount(rows: seq<EntryRow>, slug: string): (n: nat)
    ensures n <= |rows|
  {
    CountBy(rows, (r: EntryRow) => r.companySlug == slug)
  }

  /** The formatted number `SLUG/YEAR/NNNN`. */
  function FormatPaperNumber(slug: string, year: nat, count: nat): (r: string)
    ensures '/' in r
  {
    var r := Upper(slug) + "/" + DigitString(year) + "/" + Pad4(count);
    assert r[|Upper(slug)|] == '/';
    r
  }

  /** The number a document holds after the hook: kept if already set,
      otherwise generated from the company's count. */
  function AssignedNumber(current: string, slug: string, rows: seq<EntryRow>, year: nat): (r: string)
    ensures current != "" ==> r == current
    ensures current == "" ==> '/' in r
  {
    if current != "" then current else FormatPaperNumber(slug, year, CompanyCount(rows, slug) + 1)
  }

  /** The pre-save hook on a document, with the current year as a parameter. */
  method GeneratePaperNumber(entry: PaperEntry, rows: seq<EntryRow>, year: nat)
    modifies entry`paperNumber
    ensures entry.paperNumber == AssignedNumber(old(entry.paperNumber), entry.companySlug, rows, year)
    ensures old(entry.paperNumber) != "" ==> entry.paperNumber == old(entry.paperNumber)
  {
    var slug := entry.companySlug;
    if entry.paperNumber == "" {
      var count := CompanyCount(rows, slug) + 1;
      var number := FormatPaperNumber(slug, year, count);
      entry.paperNumber := number;
      assert number == AssignedNumber("", slug, rows, year);
    }
  }

  /** A set number is never replaced, so running the hook again, whatever the
      stored rows and the year are by then, changes nothing. */
  lemma AssignedNumberIdempotent(current: string, slug: string, rows: seq<EntryRow>, year: nat,
                                 laterRows: seq<EntryRow>, laterYear: nat)
    ensures AssignedNumber(current, slug, rows, year) != ""
    ensures AssignedNumber(AssignedNumber(current, slug, rows, year), slug, laterRows, laterYear) ==
      AssignedNumber(current, slug, rows, year)
  {
  }

  lemma DigitsHaveNoSeparator(s: string, c: char)
    requires IsDigits(s) && !IsDigit(c)
    ensures c !in s
  {
  }

  /** For a slug without `/`, the number splits on `/` into exactly the upper-case
      slug, the year and the padded count; the last piece reads back as the count,
      and it is four characters long exactly when the count is below 10000. */
  lemma FormatPaperNumberParts(slug: string, year: nat, count: nat)
    requires '/' !in slug
    ensures Split(FormatPaperNumber(slug, year, count), '/') == [Upper(slug), DigitString(year), Pad4(count)]
    ensures LastPiece(FormatPaperNumber(slug, year, count), '/') == Pad4(count)
    ensures ParseInt(LastPiece(FormatPaperNumber(slug, year, count), '/')) == Some(count)
    ensures count < 10000 <==> |LastPiece(FormatPaperNumber(slug, year, count), '/')| == 4
  {
    var u, y, c := Upper(slug), DigitString(year), Pad4(count);
    UpperKeepsSeparatorOut(slug, '/');
    DigitsHaveNoSeparator(y, '/');
    DigitsHaveNoSeparator(c, '/');
    SplitThree(u, y, c, '/');
    assert FormatPaperNumber(slug, year, count) == u + ['/'] + y + ['/'] + c;
    Pad4Width(count);
    Pad4RoundTrip(count);
  }

  /** Documents of other companies do not move a company's count. */
  lemma CountIgnoresOtherCompanies(rows: seq<EntryRow>, others: seq<EntryRow>, slug: string)
    requires forall i :: 0 <= i < |others| ==> others[i].companySlug != slug
    ensures CompanyCount(rows + others, slug) == CompanyCount(rows, slug)
    ensures CompanyCount(others + rows, slug) == CompanyCount(rows, slug)
  {
    var p := (r: EntryRow) => r.companySlug == slug;
    CountByAppend(rows, others, p);
    CountByAppend(others, rows, p);
    CountByNone(others, p);
  }

  /** Each new document of the company raises the next count by one. */
  lemma CountNewDocument(rows: seq<EntryRow>, slug: string, number: string)
    ensures CompanyCount(rows + [EntryRow(slug, number)], slug) == CompanyCount(rows, slug) + 1
  {
    var p := (r: EntryRow) => r.companySlug == slug;
    CountByAppend(rows, [EntryRow(slug, number)], p);
    assert [EntryRow(slug, number)][1..] == [];
  }

  /** The year is only a label: two years give numbers with the same sequence part. */
  lemma YearIsLabel(slug: string, rows: seq<EntryRow>, year1: nat, year2: nat)
    requires '/' !in slug
    ensures LastPiece(AssignedNumber("", slug, rows, year1), '/') ==
      LastPiece(AssignedNumber("", slug, rows, year2), '/')
  {
    var c := CompanyCount(rows, slug) + 1;
    FormatPaperNumberParts(slug, year1, c);
    FormatPaperNumberParts(slug, year2, c);
  }

  lemma UpperAcme()
    ensures Upper("acme") == "ACME"
  {
  }

  lemma YearText2024()
    ensures DigitString(2024) == "2024"
  {
    assert DigitString(2) == "2";
    assert DigitString(20) == "20";
    assert DigitString(202) == "202";
  }

  lemma PadTwo()
    ensures Pad4(2) == "0002"
  {
    assert DigitString(2) == "2";
    assert Zeros(3) == "000";
  }

  lemma AcmeNumberTwo()
    ensures FormatPaperNumber("acme", 2024, 2) == "ACME/2024/0002"
  {
    UpperAcme();
    YearText2024();
    PadTwo();
    assert FormatPaperNumber("acme", 2024, 2) == "ACME" + "/" + "2024" + "/" + "0002";
  }

  lemma OneAcmeRow()
    ensures CompanyCount([EntryRow("acme", "ACME/2024/0002")], "acme") == 1
  {
    var rows := [EntryRow("acme", "ACME/2024/0002")];
    assert rows[1..] == [];
  }

  /** Count plus one can repeat a number: after the first of two documents is
      deleted, the next document gets the number the second one already has. */
  lemma NumberRepeatsAfterDeletion()
    ensures AssignedNumber("", "acme", [EntryRow("acme", "ACME/2024/0002")], 2024) == "ACME/2024/0002"
  {
    OneAcmeRow();
    AcmeNumberTwo();
  }
}
