/**
 * The records the program extracts from the workbooks (Jisseki, Genka,
 * Tanka, Kokyaku), the calendar facts it relies on through DateTime, and
 * the exceptions it can raise.
 */
module Records {
  import opened Wrappers

  /** A DateTime whose day is 1, as ParseExact("yyyy/MM") and GetGenkahyo build them. */
  datatype YearMonth = YearMonth(year: int, month: int)

  /** A calendar date (DateTime.Today, or the cutover date of a month). */
  datatype Date = Date(year: int, month: int, day: int)

  /** One line of a timesheet: an employee's hours on one customer in one month. */
  datatype Jisseki = Jisseki(
    shainBango: int,
    shainName: string,
    nengetsu: YearMonth,
    kyakusakiCode: string,
    kyakusakiName: string,
    jikan: real)

  /** One line of a cost sheet: planned and actual amounts of one category. */
  datatype Genka = Genka(
    nengetsu: YearMonth,
    bunrui: string,
    busho: string,
    kyakusakiName: string,
    keiyaku: string,
    yotei: real,
    jisseki: real)

  /** An employee's standard rate. */
  datatype Tanka = Tanka(shainBango: int, shainName: string, setteiTanka: real)

  /** A customer name and its code. */
  datatype Kokyaku = Kokyaku(code: string, name: string)

  /** The exceptions that end a run. */
  datatype Error =
    | MissingSheet(sheetName: string)         // Worksheets[name] is null and is dereferenced
    | NoUsedRange(sheetName: string)          // ws.Dimension is null (no used cell)
    | NullValue(row: int, col: int)           // Cells[row, col].Value.ToString() on an empty cell
    | ParseFailure(text: string)              // int.Parse / decimal.Parse / ParseExact rejects the text
    | NoMatchingTanka(shainBango: int)        // First() on an empty rate selection
    | DivideByZero                            // decimal division by a zero total
    | InvalidDate(year: int, month: int, day: int)  // new DateTime(y, m, d) out of range
    | MonthOutOfRange(tsuki: int)             // GetTsukiSheetName's NotImplementedException

  /**
   * The text parsers of the .NET library, which are not modelled: None
   * stands for the FormatException they throw.
   */
  datatype Parsers = Parsers(
    integer: string -> Option<int>,
    decimal: string -> Option<real>,
    yearMonth: string -> Option<YearMonth>)

  /** What a scan appended before it stopped, and the exception that stopped it, if any. */
  datatype Scan<T> = Scan(items: seq<T>, error: Option<Error>)

  function Prepend<T>(xs: seq<T>, s: Scan<T>): Scan<T>
  {
    Scan(xs + s.items, s.error)
  }

  function Cons<T>(x: T, s: Scan<T>): Scan<T>
  {
    Prepend([x], s)
  }

  function Failed<T>(e: Error): Scan<T>
  {
    Scan([], Some(e))
  }

  lemma PrependNil<T>(s: Scan<T>)
    ensures Prepend([], s) == s
  {
    assert [] + s.items == s.items;
  }

  lemma PrependPrepend<T>(xs: seq<T>, ys: seq<T>, s: Scan<T>)
    ensures Prepend(xs, Prepend(ys, s)) == Prepend(xs + ys, s)
  {
    assert xs + (ys + s.items) == (xs + ys) + s.items;
  }

  lemma PrependOntoEnd<T>(xs: seq<T>, s: Scan<T>)
    requires s.items == []
    ensures Prepend(xs, s) == Scan(xs, s.error)
  {
    assert xs + [] == xs;
  }

  predicate IsLeapYear(y: int)
  {
    y % 4 == 0 && (y % 100 != 0 || y % 400 == 0)
  }

  function DaysInMonth(y: int, m: int): int
    requires 1 <= m <= 12
  {
    if m == 2 then (if IsLeapYear(y) then 29 else 28)
    else if m == 4 || m == 6 || m == 9 || m == 11 then 30
    else 31
  }

  /** The arguments that new DateTime(year, month, day) accepts without throwing. */
  predicate ValidDate(d: Date)
  {
    1 <= d.year <= 9999 && 1 <= d.month <= 12 && 1 <= d.day <= DaysInMonth(d.year, d.month)
  }

  /** DateTime's `<=`: chronological order, which on valid dates is lexicographic. */
  predicate DateLe(a: Date, b: Date)
  {
    a.year < b.year ||
    (a.year == b.year && (a.month < b.month || (a.month == b.month && a.day <= b.day)))
  }
}
