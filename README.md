# Kinmuhyo in Dafny

Kinmuhyo is a batch tool for month-end cost accounting. It works on Excel workbooks.

- Each employee's timesheet workbook (勤務表, sheet プロジェクト月計) gives
  the hours that the employee spent per customer in one month.
- Each cost workbook (原価表) has one sheet per fiscal month: "7月" … "6月",
  with digits in half-width or full-width form. Each sheet gives planned
  (予定) and actual (実績) amounts per department, customer, contract and
  category (分類).
- From these the program rewrites two sheets of an output workbook:
  - 社員別実績時間明細: one row per timesheet line. It holds the employee's
    total hours and a converted rate (換算単価): above 150 hours, the
    employee's standard rate from 単価設定 scaled by total / 150. It also
    holds the line's direct cost (直接費): converted rate × hours / total.
  - 顧客別ジョブ採算明細: one row per group of sales (売上) and purchase
    (仕入) lines that share department, month, customer and contract.
    The row holds the customer code from 顧客設定. It shows the actual
    amounts up to the configured cutover day of the group's month and
    the planned amounts after it.

The model follows `Kinmuhyo/Program.cs`.

- Its static state (the two record lists, the fiscal year `_nen` and the
  cutover day `_jissekiHaneiDay`) is the class `Kinmuhyo.Program`.
- Its readers and its loops are methods of that class, or methods next to
  the functions that specify them.
- Each module corresponds to one part of the program:
  - `Records`: the records and the exceptions.
  - `Workbook`: sheets and used ranges of cells that hold values.
  - `SheetNames`: the month sheet names.
  - `LookupTables`: 顧客設定 and 単価設定.
  - `Timesheet`: ReadKinmuhyo's rows.
  - `CostTable`: GetGenkahyo's rows and ReadGenkahyo's months.
  - `EmployeeCost`: WriteResultKinmuhyo.
  - `ProjectProfit`: WriteResultGenka.
- Every exception the code can raise on bad input is an `Error` value,
  except those listed under "Left out", and
  a read that stops early keeps what it appended before the exception.
- The cells that a writer fills are modelled as the sequence of rows it
  writes.
  - `IsDetail` gives sheet 社員別実績時間明細 row by row.
  - `IsProfit` gives sheet 顧客別ジョブ採算明細 row by row.
  - When a row cannot be written, `IsFirstFailure` names the first row
    that fails and its error.

Four places where the model follows the code rather than its comments
or a natural reading:

- Converted rate at or below 150 hours. Line 289's comment says the
  standard rate (設定単価). Line 290 assigns the total hours, and the model
  does the same (`EmployeeCost.KansanTanka`, `EmployeeCost.SmallTotalCostIsHours`).
- Order of sumGenka. GroupBy yields the groups in the order of their keys'
  first appearance in the filtered records. They are not sorted
  (`ProjectProfit.SumGenkaOrder`).
- The GetKokyaku call in WriteResultKinmuhyo. Its result is not used, but
  it raises the exception when sheet 顧客設定 is missing or empty. That
  error path is modelled.
- Last row of a sheet. The loops of GetGenkahyo, GetKokyaku and GetTanka run up to
  usedRange.Rows, the number of rows in the used range, as if it were the
  last row's number. The two agree only when row 1 is used
  (`Workbook.UsedRowsFromTop`, `Workbook.UsedRowsBelowTop`).

## Model

| member | source | states |
|---|---|---|
| Workbook.UsedRows | Kinmuhyo/Program.cs:160-165 | usedRange.Rows: none exactly when the sheet has no used row; otherwise between 1 and the last used row |
| Workbook.UsedRowsFromTop | Kinmuhyo/Program.cs:160-165 | when row 1 holds a value, the row count that bounds the loop is the last used row |
| Workbook.UsedRowsBelowTop | Kinmuhyo/Program.cs:160-165 | when rows 1 to k are empty, the row count stops at least k rows above the last used row, so the loop does not reach the sheet's last rows |
| Workbook.UsedRangeError | Kinmuhyo/Program.cs:239-242 | a missing sheet raises the missing-sheet exception; a present sheet raises none exactly when some row holds a value, and otherwise the no-used-range exception |
| SheetNames.GetTsukiSheetName | Kinmuhyo/Program.cs:443-461 | a name pair exactly for months 1 to 12, the first being the month's digits followed by 月; NotImplementedException otherwise |
| SheetNames.FullWidthSheetName | Kinmuhyo/Program.cs:447-458 | the second name of each pair is the first written with full-width digits |
| SheetNames.MonthSheetName | Kinmuhyo/Program.cs:153-158 | the half-width sheet is taken when present; otherwise the full-width sheet; otherwise a missing-sheet error; an out-of-range month fails |
| SheetNames.HalfAndFullWidthDiffer | Kinmuhyo/Program.cs:157-158 | the fallback sheet name always differs from the first choice |
| SheetNames.SheetNamesDistinct | Kinmuhyo/Program.cs:447-458 | different months never share a sheet name, in either spelling or across spellings |
| LookupTables.KeyEnd | Kinmuhyo/Program.cs:388-394 | the first row whose key cell is empty, or the end of the used range |
| LookupTables.KokyakuFrom | Kinmuhyo/Program.cs:388-401 | definition of the customer rows read from row `row` on; KokyakuFromRows states their length and contents |
| LookupTables.GetKokyaku | Kinmuhyo/Program.cs:378-404 | returns the customer table, or the missing-sheet or empty-sheet exception; every code in it is non-empty |
| LookupTables.KokyakuFromRows | Kinmuhyo/Program.cs:388-401 | one entry per row from row 2 up to the first empty code, with code from column 2 and name from column 1 |
| LookupTables.FindCode | Kinmuhyo/Program.cs:350 | FirstOrDefault: no code exactly when no entry has the name; otherwise the code of the first entry with that name |
| LookupTables.TankaAt | Kinmuhyo/Program.cs:429-434 | definition of one rate row with its int.Parse and decimal.Parse exceptions; TankaFromFirstError states how its error ends the read |
| LookupTables.TankaFrom | Kinmuhyo/Program.cs:421-435 | definition of the rate read from row `row` on; TankaFromRows and TankaFromFirstError state its result |
| LookupTables.GetTanka | Kinmuhyo/Program.cs:411-438 | returns the rate table, or the first exception met while reading it |
| LookupTables.TankaFromRows | Kinmuhyo/Program.cs:421-435 | the read succeeds exactly when every row up to the first empty id parses, and then holds one entry per such row, in order |
| LookupTables.TankaFromFirstError | Kinmuhyo/Program.cs:429-434 | a failed read fails with the parse error of the first row that does not parse, and every earlier row parses |
| LookupTables.FindRate | Kinmuhyo/Program.cs:269-270 | First: none exactly when the employee has no rate entry; otherwise the rate of the employee's first entry |
| Timesheet.JissekiAt | Kinmuhyo/Program.cs:120-131 | definition of one timesheet record with its null-cell and parse exceptions; JissekiFromRows states how it is applied to the record rows |
| Timesheet.JissekiFrom | Kinmuhyo/Program.cs:113-133 | definition of the scan of rows i to 100; JissekiFromRows and Kinmuhyo.Program.ReadKinmuhyo state its result |
| Timesheet.RecordRowsSpec | Kinmuhyo/Program.cs:113-120 | a row yields a record exactly when it is within rows 4-100, no row from 4 up to it ends the scan, and its hours are not "0" |
| Timesheet.RecordRowsSorted | Kinmuhyo/Program.cs:113-133 | records are taken in increasing row order |
| Timesheet.JissekiFromRows | Kinmuhyo/Program.cs:113-133 | the k-th record appended is built from the k-th record row; the scan stops with the first row whose record cannot be built, with that row's exception; without one, every record row yields a record |
| CostTable.CarryForward | Kinmuhyo/Program.cs:164-180 | definition of the successive values of curBunrui and curBusho; it has one value per row, CarryForwardIsLastNonEmpty characterizes each, and GenkaFromCarriesForward ties them to the scan |
| CostTable.LastNonEmptySpec | Kinmuhyo/Program.cs:169-180 | the carried value is the last non-empty cell, or the initial value when all cells are empty |
| CostTable.CarryForwardIsLastNonEmpty | Kinmuhyo/Program.cs:164-180 | at each row, curBunrui and curBusho hold the last non-empty value of their column up to that row |
| CostTable.CarryForwardExample | Kinmuhyo/Program.cs:169-173 | a category is carried down over empty cells until the next non-empty one |
| CostTable.FiscalYearMonth | Kinmuhyo/Program.cs:197-206 | definition of a fiscal month's year-month; FiscalYearSpan and FiscalYearExamples state its properties |
| CostTable.FiscalYearSpan | Kinmuhyo/Program.cs:197-206 | fiscal months 7-12 fall in year _nen and 1-6 in _nen + 1; the twelve months are distinct and span July to June |
| CostTable.FiscalYearExamples | Kinmuhyo/Program.cs:199-206 | with fiscal year 2024, month 3 is March 2025 and month 9 is September 2024 |
| CostTable.GenkaAt | Kinmuhyo/Program.cs:197-217 | definition of one cost record: the month's date first, then the two amounts; GenkaFromSheet states its fields |
| CostTable.GenkaFrom | Kinmuhyo/Program.cs:164-219 | definition of the row loop from row r with carried values; GenkaFromRecords, GenkaFromError and GenkaFromCarriesForward state its result |
| CostTable.EmitRowsSpec | Kinmuhyo/Program.cs:194-195 | a row yields a record exactly when its customer and contract are both non-empty; these rows are taken in order |
| CostTable.GenkaFromRecords | Kinmuhyo/Program.cs:166-219 | the k-th record appended is built from the k-th row with customer and contract, using the values carried down to it |
| CostTable.GenkaFromError | Kinmuhyo/Program.cs:197-217 | the loop stops exactly at the first such row whose record cannot be built, with that row's exception |
| CostTable.GenkaFromSheet | Kinmuhyo/Program.cs:164-219 | each record has the month's date, the row's non-empty customer and contract, the last category and department given down to that row, and 0 for an empty amount |
| CostTable.GenkaFromCarriesForward | Kinmuhyo/Program.cs:164-180 | the category and department of each record are the values CarryForward gives columns A and C at the record's row, starting from empty strings |
| CostTable.MonthScanMonth | Kinmuhyo/Program.cs:151-206 | every record GetGenkahyo appends for fiscal month t is dated with t's year-month |
| CostTable.MonthScan | Kinmuhyo/Program.cs:151-166 | definition of one month's read: sheet choice, used range, then the row loop; MonthScanMonth and Kinmuhyo.Program.GetGenkahyo state its result |
| CostTable.MonthsFrom | Kinmuhyo/Program.cs:144-147 | definition of the month loop from month t; MonthsFromInOrder and MonthsFromError state its result |
| CostTable.MonthsFromStep | Kinmuhyo/Program.cs:144-147 | helper: one unfolding of MonthsFrom, used by the loop proof of Kinmuhyo.Program.ReadGenkahyo; the month loop's promises are MonthsFromInOrder, MonthsFromNoError and MonthsFromError |
| CostTable.MonthsFromInOrder | Kinmuhyo/Program.cs:138-149 | every record ReadGenkahyo appends is dated with the year-month of some fiscal month 1 to 12, and the fiscal months never decrease along the list |
| CostTable.MonthsFromNoError | Kinmuhyo/Program.cs:138-149 | ReadGenkahyo raises no exception exactly when no month raises one |
| CostTable.MonthsFromError | Kinmuhyo/Program.cs:138-149 | when ReadGenkahyo raises an exception, it is the exception of the first month that raises one, and every earlier month raises none |
| Kinmuhyo.Program.constructor | Kinmuhyo/Program.cs:9-16 | both record lists start empty and the configuration values are kept |
| Kinmuhyo.Program.ReadKinmuhyo | Kinmuhyo/Program.cs:97-136 | _jissekiList gains exactly the timesheet's records, and the method returns the exception that stopped the scan; nothing is read when the sheet is missing |
| Kinmuhyo.Program.GetGenkahyo | Kinmuhyo/Program.cs:151-220 | _genkaList gains exactly the month sheet's records, and the method returns the exception it raises |
| Kinmuhyo.Program.ReadCostRows | Kinmuhyo/Program.cs:164-219 | the row loop of GetGenkahyo appends exactly the sheet's records up to its first exception |
| Kinmuhyo.Program.CostRecord | Kinmuhyo/Program.cs:197-217 | the record of one row: the month's date first, then the amounts parsed, with the resulting exception if any |
| Kinmuhyo.Program.ReadGenkahyo | Kinmuhyo/Program.cs:138-149 | _genkaList gains the records of months 1 to 12 in order, up to the first exception |
| Kinmuhyo.Program.WriteResult | Kinmuhyo/Program.cs:222-228 | on success, the two sheets are exactly the detail sheet of _jissekiList and the profitability sheet of _genkaList; the rate table's, the customer table's and the detail sheet's exceptions stop the run in that order; any later error is a detail row's, the profitability sheet's or a profitability row's |
| EmployeeCost.WriteResultKinmuhyo | Kinmuhyo/Program.cs:230-299 | the rate table's, the customer table's or the sheet's exception, in that order; otherwise one row per record in record order, or the first record's failure |
| EmployeeCost.DetailRows | Kinmuhyo/Program.cs:264-298 | the rows written are the detail sheet of the records, or the error of the first record whose row cannot be written |
| EmployeeCost.TotalJikan | Kinmuhyo/Program.cs:261-268 | definition of an employee's total hours, the sum over the employee's records; SameEmployeeSameTotals and DirectCostsSumToKansanTanka use it |
| EmployeeCost.KansanTanka | Kinmuhyo/Program.cs:281-291 | definition of the converted rate; KansanTankaMonotone and SmallTotalCostIsHours state its properties |
| EmployeeCost.DetailRow | Kinmuhyo/Program.cs:265-295 | definition of one detail row with its no-rate and division-by-zero exceptions; DetailRowOk and DetailRowFields state its fields |
| EmployeeCost.DetailRowFields | Kinmuhyo/Program.cs:265-295 | a row copies its record's fields; it holds the employee's non-zero total hours and the converted rate from the employee's first rate entry; its direct cost is converted rate × hours / total |
| EmployeeCost.DetailRowOk | Kinmuhyo/Program.cs:267-295 | helper: the fields of a row that DetailRow writes, read off its definition; the promises about the sheet are DetailRowFields, SameEmployeeSameTotals and DirectCostsSumToKansanTanka |
| EmployeeCost.SameEmployeeSameTotals | Kinmuhyo/Program.cs:261-268 | all rows of one employee show the same total hours and the same converted rate |
| EmployeeCost.KansanTankaMonotone | Kinmuhyo/Program.cs:282-286 | above 150 hours, and for a non-negative standard rate, the converted rate does not decrease as the total hours grow |
| EmployeeCost.DirectCostsSumToKansanTanka | Kinmuhyo/Program.cs:294-295 | an employee's direct costs add up exactly to the employee's converted rate |
| EmployeeCost.SmallTotalCostIsHours | Kinmuhyo/Program.cs:287-295 | at or below 150 total hours, the converted rate is the total hours, so each direct cost equals the line's own hours |
| EmployeeCost.WorkedExample | Kinmuhyo/Program.cs:261-295 | 80 and 100 hours at rate 3000 give total 180, converted rate 3600, and direct costs 1600 and 2000 |
| ProjectProfit.SumGenka | Kinmuhyo/Program.cs:328-341 | definition of sumGenka: filter, group by key in first-appearance order, sum; the SumGenka lemmas below state its properties |
| ProjectProfit.FilteredSpec | Kinmuhyo/Program.cs:329 | only sales and purchase lines are aggregated |
| ProjectProfit.KeysDistinct | Kinmuhyo/Program.cs:330 | the group keys are pairwise distinct |
| ProjectProfit.KeyInKeys | Kinmuhyo/Program.cs:330 | every aggregated line belongs to some group |
| ProjectProfit.KeyOfSomeRecord | Kinmuhyo/Program.cs:330 | every group comes from some line |
| ProjectProfit.KeysFirstAppearance | Kinmuhyo/Program.cs:330 | groups come in the order of their first line |
| ProjectProfit.GroupsPartition | Kinmuhyo/Program.cs:330-340 | summed over all groups, each amount equals its total over all lines |
| ProjectProfit.FilterKeepsGroupSums | Kinmuhyo/Program.cs:329-340 | lines of other categories add nothing to a group's four sums |
| ProjectProfit.FilterKeepsTotals | Kinmuhyo/Program.cs:329-340 | lines of other categories add nothing to the overall sums |
| ProjectProfit.SumGenkaKeys | Kinmuhyo/Program.cs:328-341 | sumGenka has one summary per group key, in key order, each summing its group |
| ProjectProfit.SumGenkaDistinct | Kinmuhyo/Program.cs:330 | no two summaries share a key |
| ProjectProfit.SumGenkaSound | Kinmuhyo/Program.cs:328-330 | every summary stands for at least one sales or purchase line |
| ProjectProfit.SumGenkaComplete | Kinmuhyo/Program.cs:328-330 | every sales or purchase line is counted in some summary |
| ProjectProfit.SumGenkaSums | Kinmuhyo/Program.cs:337-340 | each of a summary's four amounts is the sum of that amount over its group's lines, with other categories counting 0 |
| ProjectProfit.SumGenkaOrder | Kinmuhyo/Program.cs:330 | summaries appear in the order of their groups' first lines |
| ProjectProfit.SumGenkaConserves | Kinmuhyo/Program.cs:328-341 | over all summaries, each amount adds up to its total over all lines |
| ProjectProfit.SumGenkaExample | Kinmuhyo/Program.cs:328-341 | a sales line and a purchase line of one contract give one summary with both amounts; a line of another category is dropped |
| ProjectProfit.CutoverDate | Kinmuhyo/Program.cs:357 | days 1 to 28 exist in every month of years 1 to 9999; day 31 does not exist in April, June, September and November, day 30 not in February, and February 29 only in leap years; a day, month or year out of range raises the exception, which names the arguments |
| ProjectProfit.UsesJisseki | Kinmuhyo/Program.cs:355-357 | definition of the comparison of today with the cutover date; CutoverInclusive, CutoverMonotone and CutoverExamples state its properties |
| ProjectProfit.CutoverInclusive | Kinmuhyo/Program.cs:355-366 | the cutover day still shows actual amounts; every later date shows planned amounts, including the next calendar day, which is the first of the next month or year when the cutover is a month's last day |
| ProjectProfit.CutoverMonotone | Kinmuhyo/Program.cs:357 | once a later date shows actual amounts, so does every earlier date; once an earlier date shows planned amounts, so does every later date |
| ProjectProfit.CutoverExamples | Kinmuhyo/Program.cs:357 | with cutover day 10, May 9 and May 10 of 2024 show actual amounts and May 11 shows planned amounts; day 31 in April raises an error; day 29 in February is valid in 2024 and raises an error in 2023 |
| ProjectProfit.WriteResultGenka | Kinmuhyo/Program.cs:301-371 | the customer table's or the sheet's exception, in that order; otherwise one row per summary in sumGenka order, or the first summary's failure |
| ProjectProfit.ProfitRow | Kinmuhyo/Program.cs:344-366 | definition of one profitability row; ProfitRowFields and SameCustomerSameCode state its fields |
| ProjectProfit.ProfitRowFields | Kinmuhyo/Program.cs:344-366 | the cutover date of the summary's month is a valid date; a row copies its summary's key; it holds the first matching customer code; it holds actual amounts when today is at or before the cutover date and planned amounts otherwise |
| ProjectProfit.SameCustomerSameCode | Kinmuhyo/Program.cs:350 | summaries of the same customer get the same code |

## Left out

- Main, the configuration file, the folder enumeration and the SecurityException handling (lines 18-95): command-line and file-system I/O. The class gives the operations that Main calls in sequence.
- Opening and saving workbooks, package passwords, the license context, Clear, header cells, number formats and SaveAs: EPPlus I/O and formatting. A workbook is a map from sheet names to cell grids.
- The header cells written in row 1 of both output sheets: they are constants, not computed.
- Console output: no effect on the results.
- int.Parse, decimal.Parse and DateTime.ParseExact: .NET library parsers. They are the `Parsers` parameter, and a parse that fails returns none.
- DateTime.Today: a parameter `today` of WriteResult and WriteResultGenka.
- Cell.Text versus Value.ToString(): the model gives each cell one string. Number formatting in Text is not modelled.
- Worksheet-name lookup: exact map lookup. EPPlus's case-insensitive matching is not modelled.
- Workbook.UsedRows: a cell is either empty or holds a text, so cells that carry only a style are not represented. EPPlus's Dimension also covers such cells; the model's used range covers only cells with a value, and for a sheet whose first row is blank but formatted it counts one row fewer than EPPlus does.
- EmployeeCost.DetailRows: decimal arithmetic is modelled with exact reals. The 28-digit rounding and the OverflowException of System.Decimal (lines 285 and 295) are not modelled.
- ProjectProfit.WriteResultGenka: its amounts are exact reals, without decimal rounding and without the OverflowException of the sums at lines 337-340.
- Kinmuhyo.Program.WriteResult: once both tables and the detail sheet are in place, it states only which of three failures an error can be (a detail row, the profitability sheet, a profitability row), not their order; the order is in the contracts of EmployeeCost.WriteResultKinmuhyo and ProjectProfit.WriteResultGenka.
- Kinmuhyo.Program.ReadCostRows: a helper for the row loop of GetGenkahyo. It is only called once GetTsukiSheetName has accepted the month and the sheet has a used range. Its precondition states these two facts.
- Concurrency and lazy LINQ evaluation: the program is single-threaded. The lists do not change while the queries run, so a query that is enumerated again (sumJikan is regrouped for every record, lines 261-268) or only in part (First and FirstOrDefault stop at the first match) yields the same values as the functions of the model.
