/**
 * The cost table extractor: a cost workbook has one sheet per fiscal month.
 * Each sheet is scanned from row 2 to its used row count; the category
 * (column A) and the department (column C) carry forward from the last
 * non-empty cell, and a row becomes a record when its customer (column D)
 * and its contract (column E) are both given.
 */
module CostTable {
  import opened Wrappers
  import opened Records
  import opened Workbook
  import SheetNames

  // ---------------------------------------------------------------- carry-forward

  /** One step of the carry-forward: a non-empty cell replaces the current value, an empty one keeps it. */
  function Resolve(cell: string, cur: string): string
  {
    if cell != "" then cell else cur
  }

  /** The values curBunrui / curBusho take row after row while the cells go by. */
  function CarryForward(cells: seq<string>, cur: string): (r: seq<string>)
    ensures |r| == |cells|
  {
    if cells == [] then []
    else
      var v := Resolve(cells[0], cur);
      [v] + CarryForward(cells[1..], v)
  }

  /** The last non-empty cell, or `init` when every cell is empty. */
  function LastNonEmpty(cells: seq<string>, init: string): string
  {
    if cells == [] then init
    else if cells[|cells| - 1] != "" then cells[|cells| - 1]
    else LastNonEmpty(cells[..|cells| - 1], init)
  }

  /** LastNonEmpty is `init` when every cell is empty, and otherwise the non-empty cell with only empty cells after it. */
  lemma {:induction false} LastNonEmptySpec(cells: seq<string>, init: string)
    ensures (forall j :: 0 <= j < |cells| ==> cells[j] == "") ==> LastNonEmpty(cells, init) == init
    ensures forall j :: 0 <= j < |cells| && cells[j] != "" && (forall q :: j < q < |cells| ==> cells[q] == "") ==>
      LastNonEmpty(cells, init) == cells[j]
    decreases |cells|
  {
    if cells != [] && cells[|cells| - 1] == "" {
      var prefix := cells[..|cells| - 1];
      LastNonEmptySpec(prefix, init);
      assert forall j :: 0 <= j < |prefix| ==> prefix[j] == cells[j];
    }
  }

  lemma {:induction false} LastNonEmptyCons(c: string, rest: seq<string>, init: string)
    ensures LastNonEmpty([c] + rest, init) == LastNonEmpty(rest, Resolve(c, init))
    decreases |rest|
  {
    if rest != [] && rest[|rest| - 1] == "" {
      var cells := [c] + rest;
      assert cells[..|cells| - 1] == [c] + rest[..|rest| - 1];
      LastNonEmptyCons(c, rest[..|rest| - 1], init);
    } else if rest == [] {
      assert [c] + rest == [c];
      assert [c][..0] == [];
    }
  }

  /** The carried value at row k is the last non-empty cell up to and including row k. */
  lemma {:induction false} CarryForwardIsLastNonEmpty(cells: seq<string>, cur: string, k: int)
    requires 0 <= k < |cells|
    ensures CarryForward(cells, cur)[k] == LastNonEmpty(cells[..k + 1], cur)
    decreases k
  {
    var v := Resolve(cells[0], cur);
    if k == 0 {
      assert cells[..1] == [cells[0]] + [];
      LastNonEmptyCons(cells[0], [], cur);
    } else {
      CarryForwardIsLastNonEmpty(cells[1..], v, k - 1);
      assert cells[1..][..k] == cells[1..k + 1];
      assert cells[..k + 1] == [cells[0]] + cells[1..k + 1];
      LastNonEmptyCons(cells[0], cells[1..k + 1], cur);
    }
  }

  /** Department cells [A, "", "", B, ""] resolve to [A, A, A, B, B]. */
  lemma CarryForwardExample(a: string, b: string)
    requires a != "" && b != ""
    ensures CarryForward([a, "", "", b, ""], "") == [a, a, a, b, b]
  {
    var cells := [a, "", "", b, ""];
    assert cells[1..] == ["", "", b, ""] && cells[1..][1..] == ["", b, ""];
    assert cells[1..][1..][1..] == [b, ""] && cells[1..][1..][1..][1..] == [""];
    assert CarryForward([""], b) == [b];
    assert CarryForward([b, ""], a) == [b, b];
    assert CarryForward(["", b, ""], a) == [a, b, b];
    assert CarryForward(["", "", b, ""], a) == [a, a, b, b];
  }

  // ---------------------------------------------------------------- fiscal months

  /** Fiscal months 1 to 6 fall in the year after the configured one, months 7 to 12 in it. */
  function FiscalYearMonth(nen: int, tsuki: int): YearMonth
  {
    if 1 <= tsuki <= 6 then YearMonth(nen + 1, tsuki) else YearMonth(nen, tsuki)
  }

  /** Months since year 0, to compare year-months. */
  function MonthNumber(ym: YearMonth): int
  {
    ym.year * 12 + ym.month - 1
  }

  /**
   * The twelve fiscal months are the twelve calendar months from July of
   * the configured year to June of the next one, each once.
   */
  lemma FiscalYearSpan(nen: int, a: int, b: int)
    requires 1 <= a <= 12 && 1 <= b <= 12
    ensures nen * 12 + 6 <= MonthNumber(FiscalYearMonth(nen, a)) <= nen * 12 + 17
    ensures FiscalYearMonth(nen, a).month == a
    ensures a != b ==> FiscalYearMonth(nen, a) != FiscalYearMonth(nen, b)
  {
  }

  lemma FiscalYearExamples()
    ensures FiscalYearMonth(2024, 3) == YearMonth(2025, 3)
    ensures FiscalYearMonth(2024, 9) == YearMonth(2024, 9)
  {
  }

  // ---------------------------------------------------------------- rows

  /** The customer (column D) and the contract (column E) are both given. */
  predicate Emits(ws: Sheet, r: int)
  {
    Text(ws, r, 4) != "" && Text(ws, r, 5) != ""
  }

  /** A planned or actual amount: 0 for an empty cell, decimal.Parse of its text otherwise. */
  function AmountOf(c: Cell, p: Parsers): (r: Result<real, Error>)
    ensures c.None? ==> r == Ok(0.0)
  {
    match c
    case None => Ok(0.0)
    case Some(s) =>
      match p.decimal(s)
      case None => Err(ParseFailure(s))
      case Some(x) => Ok(x)
  }

  /**
   * The record of row r with the carried category and department: new
   * DateTime(year, month, 1) is built first, then planned (column I) and
   * actual (column J) are parsed.
   */
  function GenkaAt(ws: Sheet, r: int, ym: YearMonth, bunrui: string, busho: string, p: Parsers): Result<Genka, Error>
  {
    if !ValidDate(Date(ym.year, ym.month, 1)) then Err(InvalidDate(ym.year, ym.month, 1))
    else
      match AmountOf(CellAt(ws, r, 9), p)
      case Err(e) => Err(e)
      case Ok(yotei) =>
        match AmountOf(CellAt(ws, r, 10), p)
        case Err(e) => Err(e)
        case Ok(jisseki) => Ok(Genka(ym, bunrui, busho, Text(ws, r, 4), Text(ws, r, 5), yotei, jisseki))
  }

  /** The records the loop over rows r..last appends, starting from carried values cb and cd. */
  function GenkaFrom(ws: Sheet, r: int, last: int, ym: YearMonth, cb: string, cd: string, p: Parsers): Scan<Genka>
    decreases last + 1 - r
  {
    if r > last then Scan([], None)
    else
      var b := Resolve(Text(ws, r, 1), cb);
      var d := Resolve(Text(ws, r, 3), cd);
      if !Emits(ws, r) then GenkaFrom(ws, r + 1, last, ym, b, d, p)
      else
        match GenkaAt(ws, r, ym, b, d, p)
        case Err(e) => Failed(e)
        case Ok(g) => Cons(g, GenkaFrom(ws, r + 1, last, ym, b, d, p))
  }

  /** The texts of column col in rows from..last. */
  function Column(ws: Sheet, col: int, from: int, last: int): seq<string>
    decreases last + 1 - from
  {
    if from > last then [] else [Text(ws, from, col)] + Column(ws, col, from + 1, last)
  }

  /** The rows in r..last that become records, in sheet order. */
  function EmitRows(ws: Sheet, r: int, last: int): seq<int>
    decreases last + 1 - r
  {
    if r > last then []
    else if Emits(ws, r) then [r] + EmitRows(ws, r + 1, last)
    else EmitRows(ws, r + 1, last)
  }

  /** The emitting rows are exactly the rows in r..last whose customer and contract are given, in increasing order. */
  lemma {:induction false} EmitRowsSpec(ws: Sheet, r: int, last: int)
    ensures forall x :: x in EmitRows(ws, r, last) <==> r <= x <= last && Emits(ws, x)
    ensures forall a, b :: 0 <= a < b < |EmitRows(ws, r, last)| ==> EmitRows(ws, r, last)[a] < EmitRows(ws, r, last)[b]
    decreases last + 1 - r
  {
    if r <= last {
      EmitRowsSpec(ws, r + 1, last);
      var rest := EmitRows(ws, r + 1, last);
      forall k | 0 <= k < |rest| ensures rest[k] > r {
        assert rest[k] in rest;
      }
    }
  }

  /** Starting one row later from the value row r leaves in the carry variable does not change it. */
  lemma CarriedStep(ws: Sheet, col: int, r: int, x: int, init: string)
    requires r <= x
    ensures LastNonEmpty(Column(ws, col, r + 1, x), Resolve(Text(ws, r, col), init)) ==
      LastNonEmpty(Column(ws, col, r, x), init)
  {
    LastNonEmptyCons(Text(ws, r, col), Column(ws, col, r + 1, x), init);
  }

  /**
   * The record of row x of a scan that started at row r with carried values
   * cb and cd: its category and department are the last non-empty cells
   * from row r down to row x.
   */
  function RecordOfRow(ws: Sheet, r: int, x: int, ym: YearMonth, cb: string, cd: string, p: Parsers): Result<Genka, Error>
  {
    GenkaAt(ws, x, ym, LastNonEmpty(Column(ws, 1, r, x), cb), LastNonEmpty(Column(ws, 3, r, x), cd), p)
  }

  lemma RecordOfRowStep(ws: Sheet, r: int, x: int, ym: YearMonth, cb: string, cd: string, p: Parsers)
    requires r < x
    ensures RecordOfRow(ws, r + 1, x, ym, Resolve(Text(ws, r, 1), cb), Resolve(Text(ws, r, 3), cd), p) ==
      RecordOfRow(ws, r, x, ym, cb, cd, p)
  {
    CarriedStep(ws, 1, r, x, cb);
    CarriedStep(ws, 3, r, x, cd);
  }

  lemma RecordOfFirstRow(ws: Sheet, r: int, ym: YearMonth, cb: string, cd: string, p: Parsers)
    ensures RecordOfRow(ws, r, r, ym, cb, cd, p) ==
      GenkaAt(ws, r, ym, Resolve(Text(ws, r, 1), cb), Resolve(Text(ws, r, 3), cd), p)
  {
    assert Column(ws, 1, r, r) == [Text(ws, r, 1)] + [];
    assert Column(ws, 3, r, r) == [Text(ws, r, 3)] + [];
    LastNonEmptyCons(Text(ws, r, 1), [], cb);
    LastNonEmptyCons(Text(ws, r, 3), [], cd);
  }

  /** The rows in r..last that do emit: their records were carried from the scan's start. */
  lemma RowsCarried(ws: Sheet, r: int, next: int, last: int, ym: YearMonth, cb: string, cd: string, p: Parsers)
    requires r <= last && next == r + 1
    ensures forall k :: 0 <= k < |EmitRows(ws, next, last)| ==>
      next <= EmitRows(ws, next, last)[k] <= last &&
      RecordOfRow(ws, next, EmitRows(ws, next, last)[k], ym, Resolve(Text(ws, r, 1), cb), Resolve(Text(ws, r, 3), cd), p) ==
      RecordOfRow(ws, r, EmitRows(ws, next, last)[k], ym, cb, cd, p)
  {
    var rows' := EmitRows(ws, next, last);
    EmitRowsSpec(ws, next, last);
    forall k | 0 <= k < |rows'|
      ensures r + 1 <= rows'[k] <= last
      ensures RecordOfRow(ws, r + 1, rows'[k], ym, Resolve(Text(ws, r, 1), cb), Resolve(Text(ws, r, 3), cd), p) ==
        RecordOfRow(ws, r, rows'[k], ym, cb, cd, p)
    {
      assert rows'[k] in rows';
      RecordOfRowStep(ws, r, rows'[k], ym, cb, cd, p);
    }
  }

  /**
   * The month scan yields one record per emitting row, in order, up to the
   * first row whose record cannot be built; the category and department of
   * each are the last non-empty cells from r down to its row (cb and cd when
   * there are none).
   */
  lemma {:induction false} GenkaFromRecords(ws: Sheet, r: int, last: int, ym: YearMonth, cb: string, cd: string, p: Parsers)
    ensures var s, rows := GenkaFrom(ws, r, last, ym, cb, cd, p), EmitRows(ws, r, last);
      |s.items| <= |rows| &&
      forall k :: 0 <= k < |s.items| ==> RecordOfRow(ws, r, rows[k], ym, cb, cd, p) == Ok(s.items[k])
    decreases last + 1 - r
  {
    if r <= last {
      var b := Resolve(Text(ws, r, 1), cb);
      var d := Resolve(Text(ws, r, 3), cd);
      GenkaFromRecords(ws, r + 1, last, ym, b, d, p);
      RowsCarried(ws, r, r + 1, last, ym, cb, cd, p);
      var s, rows := GenkaFrom(ws, r, last, ym, cb, cd, p), EmitRows(ws, r, last);
      var s', rows' := GenkaFrom(ws, r + 1, last, ym, b, d, p), EmitRows(ws, r + 1, last);
      if Emits(ws, r) && GenkaAt(ws, r, ym, b, d, p).Ok? {
        assert rows == [r] + rows';
        RecordOfFirstRow(ws, r, ym, cb, cd, p);
        assert s.items == [GenkaAt(ws, r, ym, b, d, p).value] + s'.items;
        forall k | 1 <= k < |s.items|
          ensures RecordOfRow(ws, r, rows[k], ym, cb, cd, p) == Ok(s.items[k])
        {
          assert rows[k] == rows'[k - 1] && s.items[k] == s'.items[k - 1];
        }
      }
    }
  }

  /**
   * The scan stops with the exception of the first emitting row whose
   * record cannot be built, and without one every emitting row yields a
   * record.
   */
  lemma {:induction false} GenkaFromError(ws: Sheet, r: int, last: int, ym: YearMonth, cb: string, cd: string, p: Parsers)
    ensures var s, rows := GenkaFrom(ws, r, last, ym, cb, cd, p), EmitRows(ws, r, last);
      (s.error.None? <==> |s.items| == |rows|) &&
      (s.error.Some? ==> |s.items| < |rows| && RecordOfRow(ws, r, rows[|s.items|], ym, cb, cd, p) == Err(s.error.value))
    decreases last + 1 - r
  {
    GenkaFromRecords(ws, r, last, ym, cb, cd, p);
    if r <= last {
      var b := Resolve(Text(ws, r, 1), cb);
      var d := Resolve(Text(ws, r, 3), cd);
      GenkaFromError(ws, r + 1, last, ym, b, d, p);
      GenkaFromRecords(ws, r + 1, last, ym, b, d, p);
      RowsCarried(ws, r, r + 1, last, ym, cb, cd, p);
      var s, rows := GenkaFrom(ws, r, last, ym, cb, cd, p), EmitRows(ws, r, last);
      var s', rows' := GenkaFrom(ws, r + 1, last, ym, b, d, p), EmitRows(ws, r + 1, last);
      if Emits(ws, r) {
        assert rows == [r] + rows';
        RecordOfFirstRow(ws, r, ym, cb, cd, p);
        if GenkaAt(ws, r, ym, b, d, p).Ok? {
          assert s.items == [GenkaAt(ws, r, ym, b, d, p).value] + s'.items;
          assert s.error == s'.error;
          if s.error.Some? {
            assert rows[|s.items|] == rows'[|s'.items|];
          }
        }
      }
    }
  }

  /**
   * Every record of a month sheet scanned from row 2 carries the fiscal
   * year-month, the non-empty customer and contract of its own row, the
   * last non-empty category and department at or above its row (or "" when
   * there is none), and an amount of 0 wherever its cell is empty.
   */
  lemma GenkaFromSheet(ws: Sheet, last: int, ym: YearMonth, p: Parsers)
    ensures var s, rows := GenkaFrom(ws, 2, last, ym, "", "", p), EmitRows(ws, 2, last);
      |s.items| <= |rows| &&
      forall k :: 0 <= k < |s.items| ==>
        s.items[k].nengetsu == ym &&
        s.items[k].kyakusakiName == Text(ws, rows[k], 4) != "" &&
        s.items[k].keiyaku == Text(ws, rows[k], 5) != "" &&
        s.items[k].bunrui == LastNonEmpty(Column(ws, 1, 2, rows[k]), "") &&
        s.items[k].busho == LastNonEmpty(Column(ws, 3, 2, rows[k]), "") &&
        (CellAt(ws, rows[k], 9).None? ==> s.items[k].yotei == 0.0) &&
        (CellAt(ws, rows[k], 10).None? ==> s.items[k].jisseki == 0.0)
  {
    GenkaFromRecords(ws, 2, last, ym, "", "", p);
    EmitRowsSpec(ws, 2, last);
    var s, rows := GenkaFrom(ws, 2, last, ym, "", "", p), EmitRows(ws, 2, last);
    forall k | 0 <= k < |s.items| ensures Emits(ws, rows[k]) {
      assert rows[k] in rows;
    }
  }

  /** The first x - from + 1 texts of a column down to row last are the column down to row x. */
  lemma {:induction false} ColumnPrefix(ws: Sheet, col: int, from: int, x: int, last: int)
    requires from <= x + 1 && x <= last
    ensures |Column(ws, col, from, last)| == last - from + 1
    ensures Column(ws, col, from, last)[..x - from + 1] == Column(ws, col, from, x)
    decreases x + 1 - from
  {
    ColumnLength(ws, col, from, last);
    if from <= x {
      ColumnPrefix(ws, col, from + 1, x, last);
      var c := Column(ws, col, from, last);
      assert c == [Text(ws, from, col)] + Column(ws, col, from + 1, last);
      assert c[..x - from + 1] == [Text(ws, from, col)] + Column(ws, col, from + 1, last)[..x - from];
    }
  }

  lemma {:induction false} ColumnLength(ws: Sheet, col: int, from: int, last: int)
    requires from <= last + 1
    ensures |Column(ws, col, from, last)| == last - from + 1
    decreases last + 1 - from
  {
    if from <= last {
      ColumnLength(ws, col, from + 1, last);
    }
  }

  /**
   * The category and department of each record of a month sheet are the
   * values that CarryForward gives the columns A and C at the record's row.
   */
  lemma GenkaFromCarriesForward(ws: Sheet, last: int, ym: YearMonth, p: Parsers)
    ensures var s, rows := GenkaFrom(ws, 2, last, ym, "", "", p), EmitRows(ws, 2, last);
      |s.items| <= |rows| &&
      forall k :: 0 <= k < |s.items| ==>
        2 <= rows[k] <= last &&
        rows[k] - 2 < |Column(ws, 1, 2, last)| && rows[k] - 2 < |Column(ws, 3, 2, last)| &&
        s.items[k].bunrui == CarryForward(Column(ws, 1, 2, last), "")[rows[k] - 2] &&
        s.items[k].busho == CarryForward(Column(ws, 3, 2, last), "")[rows[k] - 2]
  {
    GenkaFromSheet(ws, last, ym, p);
    EmitRowsSpec(ws, 2, last);
    var s, rows := GenkaFrom(ws, 2, last, ym, "", "", p), EmitRows(ws, 2, last);
    forall k | 0 <= k < |s.items|
      ensures 2 <= rows[k] <= last
      ensures rows[k] - 2 < |Column(ws, 1, 2, last)| && rows[k] - 2 < |Column(ws, 3, 2, last)|
      ensures s.items[k].bunrui == CarryForward(Column(ws, 1, 2, last), "")[rows[k] - 2]
      ensures s.items[k].busho == CarryForward(Column(ws, 3, 2, last), "")[rows[k] - 2]
    {
      assert rows[k] in rows;
      var x := rows[k];
      ColumnPrefix(ws, 1, 2, x, last);
      ColumnPrefix(ws, 3, 2, x, last);
      CarryForwardIsLastNonEmpty(Column(ws, 1, 2, last), "", x - 2);
      CarryForwardIsLastNonEmpty(Column(ws, 3, 2, last), "", x - 2);
    }
  }

  // ---------------------------------------------------------------- sheets

  /** What GetGenkahyo appends for fiscal month tsuki, and the exception that stops it, if any. */
  function MonthScan(book: Book, nen: int, tsuki: int, p: Parsers): Scan<Genka>
  {
    match SheetNames.MonthSheetName(book, tsuki)
    case Err(e) => Failed(e)
    case Ok(name) =>
      match UsedRows(book[name])
      case None => Failed(NoUsedRange(name))
      case Some(n) => GenkaFrom(book[name], 2, n, FiscalYearMonth(nen, tsuki), "", "", p)
  }

  /** What ReadGenkahyo appends for months t..12; an exception ends the workbook. */
  function MonthsFrom(book: Book, nen: int, t: int, p: Parsers): Scan<Genka>
    decreases 13 - t
  {
    if t > 12 then Scan([], None)
    else
      var s := MonthScan(book, nen, t, p);
      if s.error.Some? then s else Prepend(s.items, MonthsFrom(book, nen, t + 1, p))
  }

  /** One month of the workbook: its exception ends the scan, otherwise the later months follow its records. */
  lemma MonthsFromStep(book: Book, nen: int, t: int, p: Parsers)
    requires t <= 12
    ensures MonthScan(book, nen, t, p).error.Some? ==> MonthsFrom(book, nen, t, p) == MonthScan(book, nen, t, p)
    ensures MonthScan(book, nen, t, p).error.None? ==>
      MonthsFrom(book, nen, t, p) == Prepend(MonthScan(book, nen, t, p).items, MonthsFrom(book, nen, t + 1, p))
  {
  }

  /** Every record GetGenkahyo appends for fiscal month t carries that month's year-month. */
  lemma MonthScanMonth(book: Book, nen: int, t: int, p: Parsers)
    requires 1 <= t <= 12
    ensures forall k :: 0 <= k < |MonthScan(book, nen, t, p).items| ==>
      MonthScan(book, nen, t, p).items[k].nengetsu == FiscalYearMonth(nen, t)
  {
    match SheetNames.MonthSheetName(book, t)
    case Err(_) =>
    case Ok(name) =>
      match UsedRows(book[name])
      case None =>
      case Some(n) => GenkaFromSheet(book[name], n, FiscalYearMonth(nen, t), p);
  }

  /**
   * items holds records of fiscal months t to 12 only, each dated with its
   * fiscal month's year-month, and the fiscal months do not decrease along
   * the list (the month of a record's year-month is its fiscal month).
   */
  ghost predicate InFiscalOrder(items: seq<Genka>, nen: int, t: int)
  {
    (forall k :: 0 <= k < |items| ==>
      t <= items[k].nengetsu.month <= 12 && items[k].nengetsu == FiscalYearMonth(nen, items[k].nengetsu.month)) &&
    (forall a, b :: 0 <= a < b < |items| ==> items[a].nengetsu.month <= items[b].nengetsu.month)
  }

  /** ReadGenkahyo appends the months' records in the order of the fiscal months 1 to 12. */
  lemma {:induction false} MonthsFromInOrder(book: Book, nen: int, t: int, p: Parsers)
    requires 1 <= t <= 13
    ensures InFiscalOrder(MonthsFrom(book, nen, t, p).items, nen, t)
    decreases 13 - t
  {
    if t <= 12 {
      var s := MonthScan(book, nen, t, p);
      MonthScanMonth(book, nen, t, p);
      FiscalYearSpan(nen, t, t);
      if s.error.Some? {
        assert MonthsFrom(book, nen, t, p) == s;
      } else {
        MonthsFromInOrder(book, nen, t + 1, p);
        var rest := MonthsFrom(book, nen, t + 1, p).items;
        var all := s.items + rest;
        assert MonthsFrom(book, nen, t, p).items == all;
        forall k | 0 <= k < |all|
          ensures t <= all[k].nengetsu.month <= 12 && all[k].nengetsu == FiscalYearMonth(nen, all[k].nengetsu.month)
        {
          if k >= |s.items| {
            assert all[k] == rest[k - |s.items|];
          }
        }
        forall a, b | 0 <= a < b < |all| ensures all[a].nengetsu.month <= all[b].nengetsu.month {
          if b < |s.items| {
          } else if a < |s.items| {
            assert all[b] == rest[b - |s.items|];
          } else {
            assert all[a] == rest[a - |s.items|] && all[b] == rest[b - |s.items|];
          }
        }
      }
    }
  }

  /** Fiscal month m is the first of months from..12 whose sheet raises an exception, and e is that exception. */
  ghost predicate FirstFailingMonth(book: Book, nen: int, p: Parsers, from: int, m: int, e: Error)
  {
    from <= m <= 12 && MonthScan(book, nen, m, p).error == Some(e) &&
    forall q :: from <= q < m ==> MonthScan(book, nen, q, p).error.None?
  }

  /** ReadGenkahyo returns no exception exactly when no month raises one. */
  lemma {:induction false} MonthsFromNoError(book: Book, nen: int, t: int, p: Parsers)
    requires 1 <= t <= 13
    ensures MonthsFrom(book, nen, t, p).error.None? <==>
      forall m :: t <= m <= 12 ==> MonthScan(book, nen, m, p).error.None?
    decreases 13 - t
  {
    if t <= 12 {
      var s := MonthScan(book, nen, t, p);
      MonthsFromStep(book, nen, t, p);
      if s.error.None? {
        MonthsFromNoError(book, nen, t + 1, p);
        assert MonthsFrom(book, nen, t, p).error == MonthsFrom(book, nen, t + 1, p).error;
        assert (forall m :: t <= m <= 12 ==> MonthScan(book, nen, m, p).error.None?) <==>
          (forall m :: t + 1 <= m <= 12 ==> MonthScan(book, nen, m, p).error.None?);
      } else {
        assert MonthsFrom(book, nen, t, p).error == s.error;
      }
    }
  }

  /** When ReadGenkahyo returns an exception, it is the exception of the first month that raises one. */
  lemma {:induction false} MonthsFromError(book: Book, nen: int, t: int, p: Parsers)
    requires 1 <= t <= 13
    ensures MonthsFrom(book, nen, t, p).error.Some? ==>
      exists m :: FirstFailingMonth(book, nen, p, t, m, MonthsFrom(book, nen, t, p).error.value)
    decreases 13 - t
  {
    if t <= 12 {
      var s := MonthScan(book, nen, t, p);
      if s.error.Some? {
        assert FirstFailingMonth(book, nen, p, t, t, s.error.value);
      } else {
        MonthsFromError(book, nen, t + 1, p);
        var e := MonthsFrom(book, nen, t + 1, p).error;
        assert MonthsFrom(book, nen, t, p).error == e;
        if e.Some? {
          var m :| FirstFailingMonth(book, nen, p, t + 1, m, e.value);
          assert FirstFailingMonth(book, nen, p, t, m, e.value);
        }
      }
    }
  }
}
