# Business documents, tender tracker and sales projections — a Dafny model

This project models the core of a small Django business site with three apps:

- **papers**: numbered business documents (quotations, invoices, delivery notes). A document gets the number `SLUG/YEAR/NNNN` when it is first saved. Its totals are the sum of its line items plus an optional tax. A preview or PDF shows the sequence plus 99, padded to four digits. Amounts can be spelled out in words ("One Hundred Twenty Kwacha Only").
- **tracker**: tenders won by companies, with their expenses and payments. The admin displays derived figures (total tender value, profit, margin, status colour, duration, short description). The template filters `sum_attr` and `filter_status` work over lists. The JSON endpoints list and filter tenders, group figures by company, summarise the whole table and feed the latest expenses. A form endpoint records a payment.
- **projections**: sales projections (projects WON, LOST or PENDING for a company). A record's year comes from its date. The dashboard creates records, lists the active ones newest first, filters by company, status and year, and sums WON and LOST amounts, overall and per company. A record can be archived.

Database tables are sequences of records in the model. A query becomes a filter or a sum over the sequence. Money is an exact `real`, dates are a calendar-date datatype, and strings are `seq<char>`.

Model objects whose fields the code assigns in place are classes with `modifies` clauses:

- `PaperEntry` and `PaperItem`;
- `ProjectRecord`;
- the tracker and projection tables (`TrackerStore`, `ProjectStore`).

Loops that build lists (`api_tenders`, `api_tenders_by_company`, `api_expenses`, the overrun accumulator, `calculate_totals`) are methods with loop invariants. Each is proved against a specification function.

Modules:

| file | module | models |
|---|---|---|
| wrappers.dfy | Wrappers | Option and Result |
| text.dfy | Text | Python's `int()`, `Decimal()` on plain decimals, `f"{n:04d}"`, `str.split`, `upper`/`lower`, `strip`, `icontains` |
| sums.dfy | Sums | `sum(...)`, `count()`, list comprehensions with `if` |
| sorting.dfy | Sorting | `order_by("-key")` |
| dates.dfy | Dates | `datetime.date`: validity, ordering, `toordinal`, `isoformat`, `fromisoformat` |
| number_words.dfy | NumberWords | papers/templatetags/number_words.py |
| papers_models.dfy | PaperModels | papers/models.py |
| paper_signals.dfy | PaperSignals | papers/signals.py |
| paper_views.dfy | PaperViews | papers/views.py |
| tracker_models.dfy | TrackerModels | tracker/models.py |
| tracker_filters.dfy | TrackerFilters | tracker/templatetags/tracker_filters.py |
| tracker_admin.dfy | TrackerAdmin | tracker/admin.py |
| tracker_views.dfy | TrackerViews | tracker/views.py |
| projections_models.dfy | ProjectionModels | projections/models.py |
| projections_views.dfy | ProjectionViews | projections/views.py |

Four collaborators of `Tender` are called by tracker/views.py but not defined in tracker/models.py: `total_paid`, `expense_overrun`, `update_payment_status` and the `Payment` model. The first three are function-typed parameters (`TenderRules`, `statusRule`), so the model assumes nothing about their rules. A payment is modelled as a (tender, amount) row.

## Model

| member | source | states |
|---|---|---|
| NumberWords.NumToWords | papers/templatetags/number_words.py:12-21 | the words of n are never empty; every recursive call is on a smaller argument (n % 100, n // 1000, n % 1000), so num_to_words ends for every n >= 0 |
| NumberWords.NumToWordsForm | papers/templatetags/number_words.py:13-21 | below a million the words start with a capital word; from a million on the result is the plain decimal digit string |
| NumberWords.HundredsShape | papers/templatetags/number_words.py:17-18 | for 100 <= n < 1000: "<ONES[n/100]> Hundred", followed by the words of n % 100 only when that remainder is not 0 |
| NumberWords.ThousandsShape | papers/templatetags/number_words.py:19-20 | for 1000 <= n < 1,000,000: "<words(n/1000)> Thousand", followed by the words of n % 1000 only when that remainder is not 0 |
| NumberWords.BelowHundredRun | papers/templatetags/number_words.py:13-16 | below 100 the words (ONES[n], or TENS[n/10] with ONES[n%10] only when nonzero) read back as n |
| NumberWords.BelowThousandRun | papers/templatetags/number_words.py:13-18 | below 1000 the words read back as n |
| NumberWords.OnesFacts | papers/templatetags/number_words.py:5-8 | each of the twenty ONES words is one capitalised word that reads as its index |
| NumberWords.TensFacts | papers/templatetags/number_words.py:10 | each TENS word from Twenty to Ninety is one capitalised word that reads as ten times its index |
| NumberWords.NumToWordsRoundTrip | papers/templatetags/number_words.py:12-21 | reading the words back as an English number gives n again, for every n >= 0 |
| NumberWords.NumToWordsInjective | papers/templatetags/number_words.py:12-21 | two numbers with the same words are equal |
| NumberWords.NumToWordsVocabulary | papers/templatetags/number_words.py:12-21 | every word of the result is a number word or the digit string (never "Kwacha", "And", "Only") |
| NumberWords.AmountInWords | papers/templatetags/number_words.py:30-36 | the phrase for kwacha and ngwee is never empty |
| NumberWords.AmountSplit | papers/templatetags/number_words.py:30-36 | the phrase is words(kwacha) "Kwacha" followed by "And" words(ngwee) "Ngwee" when ngwee > 0, else "Only" |
| NumberWords.AmountRoundTrip | papers/templatetags/number_words.py:24-36 | the phrase decodes back to exactly (kwacha, ngwee) |
| NumberWords.AmountZero | papers/templatetags/number_words.py:30-36 | 0 is "Zero Kwacha Only" |
| NumberWords.AmountOne | papers/templatetags/number_words.py:30-36 | 1 is "One Kwacha Only" |
| NumberWords.AmountOneFifty | papers/templatetags/number_words.py:30-36 | 1.50 is "One Kwacha And Fifty Ngwee" |
| NumberWords.AmountOneTwenty | papers/templatetags/number_words.py:30-36 | 120 is "One Hundred Twenty Kwacha Only" |
| NumberWords.AmountFilter | papers/templatetags/number_words.py:25-38 | a value that cannot be converted gives "" and only then; otherwise the phrase |
| PaperModels.PaperItem.Save | papers/models.py:71-73 | after save, amount = quantity × unit_price |
| PaperModels.PaperItem.constructor | papers/models.py:60-69 | a new item holds the given description, quantity, unit price and amount |
| PaperModels.Amounts | papers/models.py:50 | the item amounts, in item order |
| PaperModels.TaxOf | papers/models.py:52-55 | no tax unless the percentage is positive; otherwise tax × 100 = percentage × subtotal, positive for a positive subtotal |
| PaperModels.TotalsOf | papers/models.py:49-57 | subtotal is the sum of the item amounts, tax follows the rate rule, total = subtotal + tax; no items give all zeros |
| PaperModels.PaperEntry.constructor | papers/models.py:28-42 | a new entry carries the given company, client, number and tax rate and zero totals |
| PaperModels.PaperEntry.CalculateTotals | papers/models.py:49-57 | the entry's subtotal, tax and total become TotalsOf(rate, the item amounts) |
| PaperModels.TotalsOrderFree | papers/models.py:50 | the totals do not depend on the order of the items |
| PaperModels.TotalsAddItem | papers/models.py:50-57 | one more item adds its amount to the subtotal and its amount plus its tax to the total |
| PaperModels.TotalsNonNegative | papers/models.py:50-57 | with non-negative amounts, 0 <= subtotal <= total |
| PaperModels.SavedItemsSubtotal | papers/models.py:49-73 | once every item is saved, the subtotal is the sum of quantity × unit price |
| PaperSignals.CompanyCount | papers/signals.py:11 | the count of the company's entries is at most the number of entries |
| PaperSignals.FormatPaperNumber | papers/signals.py:12 | the number contains the '/' separator |
| PaperSignals.GeneratePaperNumber | papers/signals.py:8-12 | an entry without a number gets SLUG/YEAR/(count+1) padded to 4 digits; a non-empty number is never changed |
| PaperSignals.AssignedNumber | papers/signals.py:8-12 | a number already set is kept as it is; an empty one is replaced by a generated number, which contains the '/' separator |
| PaperSignals.AssignedNumberIdempotent | papers/signals.py:9 | the assigned number is non-empty, and a second save keeps it whatever the table and year are by then |
| PaperSignals.FormatPaperNumberParts | papers/signals.py:12 | splitting on '/' gives exactly [SLUG upper-cased, year, padded count]; the last part reads back as the count and has 4 characters exactly when count < 10000 |
| PaperSignals.CountIgnoresOtherCompanies | papers/signals.py:11 | other companies' entries do not change the count |
| PaperSignals.CountNewDocument | papers/signals.py:11 | each stored entry of the company raises the next sequence by one |
| PaperSignals.YearIsLabel | papers/signals.py:10-12 | the year does not take part in the sequence: numbering restarts neither per year nor otherwise |
| PaperSignals.NumberRepeatsAfterDeletion | papers/signals.py:11-12 | counting instead of taking the largest sequence repeats a number: with only ACME/2024/0002 left, the next number is ACME/2024/0002 again |
| PaperSignals.DigitsHaveNoSeparator | papers/signals.py:12 | a digit string holds no separator character |
| PaperViews.DisplaySequence | papers/views.py:56-59 | defined exactly when the last '/'-piece of the number parses as an integer, and then it is that integer plus 99 |
| PaperViews.DisplayNumber | papers/views.py:59-62 | defined exactly when the display sequence is; it reads back as the display sequence |
| PaperViews.PaperPreview | papers/views.py:52-65 | an unparsable number fails and leaves the entry alone; otherwise the entry's number becomes the padded display number and the template is papers/SLUG/TYPE.html |
| PaperViews.PaperPdf | papers/views.py:69-107 | as the preview, plus the file name TYPE_SLUG_NNNN.pdf with the display sequence |
| PaperViews.TemplatePath | papers/views.py:64 | the template path starts with "papers/" and ends with ".html" |
| PaperViews.PdfFilename | papers/views.py:103 | the download name ends with ".pdf" |
| PaperViews.DisplayOfGenerated | papers/signals.py:12 | a generated number shows as its count plus 99, padded to 4 digits |
| PaperViews.FirstDocumentDisplay | papers/views.py:59-62 | a company's first document shows as "0100" |
| PaperViews.TemplatePathParts | papers/views.py:64 | the template path splits into "papers", the slug and TYPE.html |
| PaperViews.PdfFilenameParts | papers/views.py:103 | the file name splits on '_' into the type, the upper-cased slug and the padded sequence with ".pdf", and the sequence reads back |
| PaperViews.NoSeparatorInPadded | papers/views.py:62 | a padded number holds no '/' or '_' |
| Text.Pad4RoundTrip | papers/views.py:62 | `f"{n:04d}"` reads back as n through `int()` |
| Text.Pad4Width | papers/signals.py:12 | the padded form is all digits, 4 long exactly below 10000, the plain digits from 10000 on |
| Text.Pad4 | papers/views.py:62 | `f"{n:04d}"` is at least 4 characters long |
| Text.ParseInt | papers/views.py:59 | a parsed text is a digit string, optionally after one sign; a negative value comes only from a leading '-' |
| Text.Split | papers/views.py:56 | `str.split` gives at least one piece, and no piece contains the separator |
| Text.DigitStringValue | papers/templatetags/number_words.py:21 | `str(n)` reads back as n |
| Text.ParseDecimalCents | tracker/views.py:180 | `Decimal("W.CC")` is W + CC/100 |
| Text.StripBlank | projections/views.py:24-28 | a stripped name is empty exactly when the input is all whitespace, and otherwise neither starts nor ends with whitespace |
| Text.StripEnds | projections/views.py:24-31 | a non-empty stripped name neither starts nor ends with whitespace |
| Text.SplitThree | papers/views.py:56-57 | three separator-free pieces joined with the separator split back into those three pieces, and the last piece is the third |
| Text.ParseDecimalOf | tracker/views.py:180 | `Decimal("W.C")` with a non-empty digit string W and a digit string C is the decimal value of W.C |
| Text.IContainsIgnoresCase | tracker/views.py:220 | a case-insensitive search matches the same with the needle upper- or lower-cased |
| Dates.OrdinalOrder | tracker/admin.py:155 | one date is before another exactly when its day number is smaller, and equal exactly when the day numbers are |
| Dates.ParseIso | projections/views.py:40 | a parsed date is a valid calendar date |
| Dates.IsoRoundTrip | tracker/views.py:246-247 | `date.fromisoformat(d.isoformat()) == d` |
| Dates.Ordinal | tracker/admin.py:155 | the day number is at least 1, and 1 exactly for 0001-01-01 |
| Dates.IsoFormat | tracker/views.py:246-247 | `isoformat()` is 10 characters with '-' at positions 4 and 7 |
| Sorting.SortDesc | projections/views.py:66 | the ordered list is a permutation of the input with keys from largest to smallest |
| Sorting.InsertDescSorted | projections/views.py:66 | inserting into a descending list keeps it descending |
| Sums.CountBySum | tracker/views.py:308-312 | counting the matches is summing 1 for each match and 0 otherwise |
| Sorting.CountByPermutation | projections/views.py:66 | a permutation has the same number of matches for every test |
| Sorting.FilterKeepsOrder | projections/views.py:92-99 | filtering an ordered list keeps it ordered |
| TrackerModels.TendersOf | tracker/models.py:15 | a company's tenders are exactly the tenders pointing at it |
| TrackerModels.ExpensesOf | tracker/models.py:41 | a tender's expenses are exactly the expenses pointing at it |
| TrackerModels.TotalExpensesAsShares | tracker/models.py:30-31 | total_expenses sums each expense's amount when it belongs to the tender |
| TrackerModels.TotalExpenses | tracker/models.py:30-31 | the expense total is never negative when none of the tender's expenses is |
| TrackerModels.Profit | tracker/models.py:33-34 | with non-negative expenses the profit never exceeds the tender value |
| TrackerModels.NoExpenses | tracker/models.py:30-34 | without expenses the total is 0 and the profit is the tender value |
| TrackerModels.AddExpense | tracker/models.py:30-34 | a new expense of the tender raises total_expenses and lowers profit by its amount; another tender's changes neither |
| TrackerModels.TotalExpensesOrderFree | tracker/models.py:30-34 | neither figure depends on the order of the expenses |
| TrackerModels.ProfitSign | tracker/models.py:33-34 | profit + total_expenses = total_value, and profit is negative exactly when expenses exceed the value |
| TrackerFilters.SumAttrSkipsMissing | tracker/templatetags/tracker_filters.py:11-14 | an item without the attribute adds 0, whatever the items before it |
| TrackerFilters.SumAttrTypeError | tracker/templatetags/tracker_filters.py:15-16 | an attribute that is not a number makes the sum 0 |
| TrackerFilters.SumAttrNumbers | tracker/templatetags/tracker_filters.py:5-14 | with numeric attributes the result is the sum of the values, missing ones counted as 0 |
| TrackerFilters.SumAttrOrderFree | tracker/templatetags/tracker_filters.py:5-16 | the sum does not depend on the order of the items |
| TrackerFilters.SumAttr | tracker/templatetags/tracker_filters.py:5-16 | a non-zero sum needs a non-empty queryset whose items raise no type error; with non-negative values the sum is non-negative |
| TrackerFilters.FilterStatus | tracker/templatetags/tracker_filters.py:18-29 | no queryset gives []; otherwise no more items than the input |
| TrackerFilters.FilterStatusMembers | tracker/templatetags/tracker_filters.py:25-27 | an item is kept exactly when it is in the input and its status equals the requested one |
| TrackerFilters.FilterStatusCounts | tracker/templatetags/tracker_filters.py:25-27 | each kept item is kept as often as it occurs, every other item never |
| TrackerFilters.FilterStatusOrder | tracker/templatetags/tracker_filters.py:25-27 | the filter keeps the input order: filtering a concatenation concatenates the filtered parts |
| TrackerFilters.FilterStatusIdempotent | tracker/templatetags/tracker_filters.py:18-29 | filtering twice is filtering once, and the length is the number of matching items |
| TrackerFilters.FilterStatusNeedsAttribute | tracker/templatetags/tracker_filters.py:26 | items without a status attribute are never kept |
| TrackerAdmin.TotalTenderValueShares | tracker/admin.py:34-36 | the company's tender value sums each tender's value when it belongs to the company, 0 when none does |
| TrackerAdmin.TotalTenderValueAdd | tracker/admin.py:34-36 | a new tender adds its value when it is the company's, nothing otherwise |
| TrackerAdmin.TotalTenderValueOrderFree | tracker/admin.py:34-36 | the value does not depend on the order of the tenders |
| TrackerAdmin.TotalTenderValue | tracker/admin.py:34-36 | the company's tender value is never negative when none of its tenders' values is |
| TrackerAdmin.ProfitColour | tracker/admin.py:113-115 | the profit is shown red exactly when the expenses exceed the tender value |
| TrackerAdmin.MarginColour | tracker/admin.py:125-136 | a colour exists exactly when the tender value is positive, and it is red exactly when the margin is negative |
| TrackerAdmin.StatusColour | tracker/admin.py:139-145 | never red; black exactly for a status other than Pending, Partially Paid and Paid |
| TrackerAdmin.SignColour | tracker/admin.py:115 | green exactly for a non-negative amount, red otherwise |
| TrackerAdmin.ProfitMargin | tracker/admin.py:125-136 | a margin exists exactly when the tender value is positive, and margin × value = profit × 100 |
| TrackerAdmin.MarginColourAgrees | tracker/admin.py:113-136 | the margin's colour is the profit's colour |
| TrackerAdmin.PercentLeftBound | tracker/admin.py:125-136 | for a positive value and non-negative spending, (value - spent) / value × 100 is at most 100, and exactly 100 when nothing was spent |
| TrackerAdmin.MarginAtMostHundred | tracker/admin.py:125-136 | with non-negative expenses the margin is at most 100%, and exactly 100% when there are none |
| TrackerAdmin.StatusColourMap | tracker/admin.py:139-150 | Pending is orange, Partially Paid blue, Paid green, and any other status black |
| TrackerAdmin.DurationDays | tracker/admin.py:153-157 | a duration exists exactly when both dates are set |
| TrackerAdmin.DurationSign | tracker/admin.py:155 | the duration is positive, zero or negative as the end is after, on or before the start |
| TrackerAdmin.DurationAdds | tracker/admin.py:155 | durations add up over an intermediate date |
| TrackerAdmin.DescriptionShort | tracker/admin.py:204-207 | "-" for a missing or empty description, the text itself up to 50 characters, else its first 50 characters and "..." |
| TrackerViews.TenderById | tracker/views.py:175 | a found tender is in the table with that key; not found means no tender has it |
| TrackerViews.TenderIndex | tracker/views.py:175 | the position of the tender with that key, or the table length when there is none |
| TrackerViews.CheckPayment | tracker/views.py:169-182 | an accepted payment names an existing tender row; a refusal is never "recorded" |
| TrackerViews.CheckPaymentCases | tracker/views.py:169-182 | accepted exactly when both fields are present, the tender exists and the amount parses; a missing field gives "Missing tender or amount", an unknown tender "Tender not found" |
| TrackerViews.TrackerStore.constructor | tracker/views.py:162-188 | a new store holds the given tables and no payments |
| TrackerViews.TrackerStore.AddPayment | tracker/views.py:162-188 | a refused request changes nothing; an accepted one appends one payment and replaces only that tender's status; key uniqueness and referential integrity are kept |
| TrackerViews.NarrowIsFilter | tracker/views.py:211-220 | each optional filter keeps exactly the tenders that pass it, or all when not given |
| TrackerViews.NarrowAllIsFilter | tracker/views.py:211-220 | applying the filters in turn keeps exactly the tenders that pass all of them |
| TrackerViews.StepsMatch | tracker/views.py:211-220 | a tender passes the five chained steps exactly when it matches every given query parameter |
| TrackerViews.FilteredTendersConjunctive | tracker/views.py:211-220 | the filtered list is the input filtered by the conjunction of the given tests |
| TrackerViews.ListedTendersMatch | tracker/views.py:211-220 | a tender is listed exactly when it is in the table and matches every given filter |
| TrackerViews.NoQueryListsAll | tracker/views.py:203-220 | with no filters every tender is listed, in order |
| TrackerViews.DateParam | tracker/views.py:207-208 | an absent or empty date parameter is no filter, a text that does not parse as a date is an error, and otherwise the parsed date is used |
| TrackerViews.ReadQuery | tracker/views.py:205-209 | the request fails exactly when date_from or date_to is given but is not a date; otherwise company, status and q are copied and each date is set exactly when given, to its parsed value |
| TrackerViews.ApiTendersRequest | tracker/views.py:203-252 | a bad date_from or date_to gives no list (Django's server error); otherwise the rows are one per tender that matches the query, in order, each built from its tender |
| TrackerViews.Matches | tracker/views.py:211-220 | a query with no parameters accepts every tender |
| TrackerViews.FilteredTenders | tracker/views.py:203-220 | the filtered list is no longer than the table and holds only tenders of the table |
| TrackerViews.NarrowAll | tracker/views.py:211-220 | the chained filters never add a tender and never make the list longer |
| TrackerViews.RowOf | tracker/views.py:224-250 | the row keeps the tender's id and value; balance + paid = value; profit + expenses = value; the counts are at most the table sizes |
| TrackerViews.SearchIgnoresCase | tracker/views.py:220 | the search text matches the same whatever its case |
| TrackerViews.ApiTenders | tracker/views.py:222-250 | one row per filtered tender, in order, each built from that tender |
| TrackerViews.RowFigures | tracker/views.py:224-250 | balance + paid = value, profit = value - expenses, expense count is the number of the tender's expenses, dates are ISO text that parses back |
| TrackerViews.UniqueCount | tracker/views.py:175 | with unique keys a key picks out exactly one tender |
| TrackerViews.TenderTotalAsSum | tracker/models.py:30-31 | a tender's expense total is a sum over the expense table |
| TrackerViews.ExpenseColumn | tracker/views.py:272 | each expense belongs to exactly one tender of the table |
| TrackerViews.GroupedExpenses | tracker/views.py:272 | summing the expenses of selected tenders per tender equals summing the expense table through the tender join |
| TrackerViews.CompanyExpensesByTender | tracker/views.py:271-276 | a company's expenses are the sum of its tenders' total_expenses, and its profit the sum of its tenders' profits |
| TrackerViews.SumOverruns | tracker/views.py:279-281 | the accumulated overrun is the sum of the tenders' overruns |
| TrackerViews.CompanyExpenses | tracker/views.py:272 | the company's expense total is never negative when no expense amount is |
| TrackerViews.CompanyPaid | tracker/views.py:273 | the company's paid total is never negative when no payment amount is |
| TrackerViews.CompanyOverrun | tracker/views.py:279-281 | the company's overrun is 0 when it has no tenders, and never negative when none of its tenders' overruns is |
| TrackerViews.ApiTendersByCompany | tracker/views.py:255-297 | six lists as long as the company list; entry i holds company i's name, value, paid, expenses, value minus expenses and overrun |
| TrackerViews.StatusCountsSum | tracker/views.py:308-312 | the three status counts add up to the number of tenders with a known status |
| TrackerViews.StatusCountsPartition | tracker/views.py:301-312 | the status counts never exceed the tender count, and equal it exactly when every status is a known one |
| TrackerViews.SummaryProfitByTender | tracker/views.py:303-306 | the summary's profit is the sum of the tenders' profits |
| TrackerViews.ApiSummary | tracker/views.py:300-322 | the counts are the table sizes; profit + expenses = tender value; the three status counts add up to at most the tender count |
| TrackerViews.MapFirst | tracker/views.py:329-345 | the loop yields one entry per each of the first n elements, in order, each built from its element |
| TrackerViews.ApiExpenses | tracker/views.py:325-347 | over a table where every expense's tender exists: at most 1000 rows, one per expense in order, each naming its tender's key and a non-empty tender text |
| TrackerViews.ExpenseRowFacts | tracker/views.py:330-344 | the tender text is "TENDER_NO - COMPANY" of the tender with the expense's key, and empty exactly when no tender has that key; the tender key is given exactly when the tender exists; empty description exactly when none; the date is ISO text that parses back |
| TrackerViews.ExpenseListAll | tracker/views.py:357-384 | without filters the total is the summary's expense total |
| TrackerViews.ExpenseListOneFilter | tracker/views.py:365-384 | with only a tender filter the total is that tender's total_expenses; with only a company filter, the company's expenses |
| TrackerViews.ExpenseListBothFilters | tracker/views.py:365-384 | both filters give the tender's total when it is the company's and 0 otherwise |
| TrackerViews.ExpenseListTotal | tracker/views.py:365-384 | unfiltered it is the sum of all expenses; a tender filter no expense has gives 0; with non-negative amounts it is never negative |
| TrackerViews.SameTender | tracker/views.py:175 | with unique keys, looking up a tender's key finds that tender |
| ProjectionModels.SavedYear | projections/models.py:43-46 | with a date the year becomes the date's year; without one it stays as it was |
| ProjectionModels.SavedYearIdempotent | projections/models.py:44-45 | saving again without changing the date leaves the year the same |
| ProjectionModels.ProjectRecord.constructor | projections/models.py:4-38 | a new record holds the given fields and is active |
| ProjectionModels.ProjectRecord.FromRow | projections/models.py:4-38 | a loaded record is stored back as the same row |
| ProjectionModels.ProjectRecord.Save | projections/models.py:43-46 | save sets the year from the date when there is one and changes no other field |
| ProjectionModels.CreateRecord | projections/views.py:46-54 | a created record is stored active, with the given fields and its date's year |
| ProjectionViews.ResolveCompany | projections/views.py:23-36 | with "__new__" a blank stripped new name is refused and otherwise the stripped name is used; an empty or missing choice is refused; any other choice is used verbatim |
| ProjectionViews.ResolvedCompanyShape | projections/views.py:24-36 | a resolved company is never empty, and a typed one neither starts nor ends with whitespace |
| ProjectionViews.FormDate | projections/views.py:39-43 | a date exists exactly when the posted field is present and parses as an ISO date |
| ProjectionViews.CreateCheck | projections/views.py:22-54 | the form is refused exactly when the company does not resolve or the date does not parse |
| ProjectionViews.FormFields | projections/views.py:46-54 | the posted fields are read exactly when title, description, customer, status and amount are all present and the amount parses as a decimal |
| ProjectionViews.ReadForm | projections/views.py:22-54 | the three steps in order (company, date, save) give CreateCheck's verdict; a built row is active, under the given key, with its date's year |
| ProjectionViews.CreatedRow | projections/views.py:46-54 | an added row is active, under the next key, with its date's year and the resolved company, parsed date and amount and posted fields |
| ProjectionViews.ProjectStore.constructor | projections/models.py:4-38 | an empty table |
| ProjectionViews.ProjectStore.Create | projections/views.py:22-57 | reads the form with ReadForm and stores it with Store: the outcome, the table and the next key are what CreateEffect gives; the table stays valid |
| ProjectionViews.CreateEffect | projections/views.py:44-57 | a row is created exactly when the form is accepted and the insert succeeds; then it is appended under the next key and the key advances; otherwise table and key are unchanged |
| ProjectionViews.ProjectStore.Store | projections/views.py:44-57 | the outcome, the table and the next key become what CreateEffect gives for the checked form |
| ProjectionViews.ProjectStore.Archive | projections/views.py:148-158 | a missing key changes nothing; otherwise only that record's active flag is cleared; table validity is kept |
| ProjectionViews.AppendKeepsValid | projections/views.py:46-54 | adding a row under the next key with its date's year keeps keys unique and years consistent |
| ProjectionViews.CreateEffectKeepsValid | projections/views.py:46-57 | whatever the form, the table after the POST is still valid |
| ProjectionViews.ArchiveKeepsValid | projections/views.py:153-155 | archiving keeps the table valid |
| ProjectionViews.IndexOfId | projections/views.py:153 | the position of the first record with the key, or none when no record has it |
| ProjectionViews.ArchiveChangesOnlyActive | projections/views.py:153-155 | archiving keeps every record and every field except the archived record's active flag, which becomes false |
| ProjectionViews.ArchiveIdempotent | projections/views.py:153-155 | archiving twice is archiving once |
| ProjectionViews.Archived | projections/views.py:153-155 | archiving keeps the table's length and every record's key in place |
| ProjectionViews.IndexOfIdUnchanged | projections/views.py:153 | the lookup depends only on the keys, so archiving does not move a record |
| ProjectionViews.ProjectDetail | projections/views.py:133-145 | a shown record is in the table, has the key and is active; nothing shown means every record with the key is archived |
| ProjectionViews.FilterWhenGiven | projections/views.py:92-99 | a filter applied only when given keeps what passes it, or everything |
| ProjectionViews.FilteredRecordsConjunctive | projections/views.py:63-99 | the listing holds exactly the active records equal to every given company, status and year |
| ProjectionViews.DescendingDates | projections/views.py:66 | records ordered by descending date key are ordered from the newest date to the oldest |
| ProjectionViews.FilteredRecordsNewestFirst | projections/views.py:63-67 | the listing runs from the newest project date to the oldest |
| ProjectionViews.ActiveListing | projections/views.py:63-67 | the listing holds exactly the active records and runs from the newest date to the oldest |
| ProjectionViews.YearParam | projections/views.py:89-99 | an absent or empty year is no filter, a year that does not parse as an integer is an error, and otherwise the parsed year filters |
| ProjectionViews.FilteredRecords | projections/views.py:63-99 | every listed record is an active record of the table |
| ProjectionViews.ArchivedIsHidden | projections/views.py:137-155 | after archiving, the record is in no listing and project_detail finds nothing |
| ProjectionViews.WonLostPartition | projections/views.py:104-114 | total_won + total_lost is the sum over the won-or-lost records, and both are 0 without records |
| ProjectionViews.StatusTotal | projections/views.py:104-114 | a status no record has totals 0; with non-negative amounts a total is never negative |
| ProjectionViews.AddToCount | projections/views.py:118-119 | adding to a group opens a group only for a new company |
| ProjectionViews.AddToSum | projections/views.py:118-119 | adding to a group raises that company's total and the grand total by the amount |
| ProjectionViews.AddTo | projections/views.py:118-119 | adding to the groups opens at most one group |
| ProjectionViews.Grouped | projections/views.py:118-119 | there are never more groups than records, and none exactly when there are no records |
| ProjectionViews.GroupedCount | projections/views.py:118-119 | each company of the input has exactly one group, and no other company has one |
| ProjectionViews.GroupedSums | projections/views.py:118-119 | a company's group total is the sum of its amounts, and all groups together the sum of all amounts |
| ProjectionViews.SingleGroupTotal | projections/views.py:118-119 | with one group per company, a group's total is its company's sum |
| ProjectionViews.CompanyTotalsFacts | projections/views.py:116-121 | one entry per company with a won record and none other; each total is that company's won sum; largest total first; the totals add up to total_won |
| ProjectionViews.CompanyTotals | projections/views.py:116-121 | the company totals run from the largest total down and are no more than the records |
| ProjectionViews.ProjectionDashboard | projections/views.py:87-130 | fails exactly when the year is not a number; otherwise the filtered listing, its won and lost sums and the company totals of that listing |

## Left out

- The Django ORM, persistence, HTTP handling, redirects, messages and pagination. The tables are in-memory sequences. `get_object_or_404` and `Tender.DoesNotExist` become an absent lookup result.
- Template rendering and WeasyPrint PDF generation. These are foreign library calls. Only the template path and the file name are modelled.
- The `float()` conversions at the JSON boundary and the float split in `amount_in_words`. Kwacha and ngwee are taken as integers, with ngwee below 100.
- NumberWords.NumToWords: negative numbers are not modelled. Python's negative list index gives wrong words for them, and the function takes a `nat`.
- `now().year` in papers/signals.py is a parameter. A clock is outside the model.
- The race between counting and inserting a paper number. Concurrency is out of scope.
- `Tender.total_paid`, `expense_overrun`, `update_payment_status` and `Payment` are not defined in tracker/models.py. They are parameters with no assumed rules.
- Money formatting (`$`, thousands separators, `.2f`) and HTML colour markup. The colour choice is modelled; the markup is not.
- Decimal quantisation to two places, and the maximum digits of the decimal fields. These are database storage rules; money is exact.
- Forms, URL tables, admin registration and the page-side script. These are UI wiring.
- Text.ParseDecimal: accepts only an optional sign, digits and an optional fraction. Python's `Decimal()` also accepts exponents, surrounding whitespace, underscores, "NaN" and "Infinity".
- Text.ParseInt: accepts only an optional sign and ASCII digits. Python's `int()` also accepts surrounding whitespace, underscores and non-ASCII digits.
- Dates.ParseIso: accepts only YYYY-MM-DD. Newer Pythons' `date.fromisoformat` also accepts the basic and week-date forms.
- Text.Upper, Text.Lower, Text.Strip and the case-insensitive search cover ASCII letters and whitespace only. Unicode case mapping and whitespace are left out.
- Database orderings are the input order of the sequences: companies by name, expenses by newest date, tenders by start date. Sorting.SortDesc keeps records with equal keys in its own insertion order, which the database leaves unspecified.
- The `or Decimal('0.00')` and `or 0` fallbacks are not modelled separately. A sum over no rows is 0 in the model already.
- A company or tender query parameter that is not a number: Django raises an error there. The model takes these parameters as optional integers.
- TrackerViews.ApiExpenses: requires unique tender keys and that every expense's tender is in the table, as the primary key and the non-null foreign key of tracker/models.py:41 guarantee. Because of that key and because every tender has a company, the `elif e.tender` and `else` branches of `api_expenses` cannot be reached. The model drops the `elif` branch and keeps the empty text for an expense outside an intact table (TrackerViews.ExpenseRowFacts).
- TrackerViews.DateParam: reads date_from and date_to with the YYYY-MM-DD grammar of Dates.ParseIso. Django's date lookup also accepts one-digit months and days and date-time text. A text it rejects is one failing request (TrackerViews.ApiTendersRequest); TrackerViews.ApiTenders takes the query once it is parsed.
- `delete_expense`, `create_paper_entry`, `paper_list` and the other CRUD views outside the named core are not modelled.
- The distinct company and year lists of the projections dashboard (projections/views.py:70-85) are dropdown data for the page and are not modelled.
- ProjectionViews.ProjectStore.Create: a missing title, description, customer, status or amount, or an amount `Decimal()` rejects, is one server-error outcome. The model does not distinguish the database errors behind it, and ignores the `title` default.
- ProjectionViews.ProjectionDashboard: a year that is not a number is one error outcome. Django's conversion error is not modelled further.
- The `created_at` timestamp and `__str__` methods of the models.
