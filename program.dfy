/**
 * The program's state and its passes: the timesheets fill the list of
 * hours records, the cost sheets fill the list of cost records, and the
 * output workbook receives both sheets computed from them.
 */
module Kinmuhyo {
  import opened Wrappers
  import opened Records
  import opened Workbook
  import opened Timesheet
  import opened CostTable
  import opened LookupTables
  import opened EmployeeCost
  import opened ProjectProfit
  import SheetNames

  class Program {
    /** _jissekiList: the hours records read so far. */
    var jissekiList: seq<Jisseki>
    /** _genkaList: the cost records read so far. */
    var genkaList: seq<Genka>
    /** _nen, the configured fiscal year. */
    const nen: int
    /** _jissekiHaneiDay, the configured cutover day of the month. */
    const jissekiHaneiDay: int

    constructor(nen: int, jissekiHaneiDay: int)
      ensures jissekiList == [] && genkaList == []
      ensures this.nen == nen && this.jissekiHaneiDay == jissekiHaneiDay
    {
      jissekiList := [];
      genkaList := [];
      this.nen := nen;
      this.jissekiHaneiDay := jissekiHaneiDay;
    }

    /**
     * ReadKinmuhyo on one timesheet workbook: appends the records of rows 4
     * to 100 up to the first end row, and returns the exception that stops
     * it, if any (the records appended before it stay).
     */
    method ReadKinmuhyo(book: Book, p: Parsers) returns (err: Option<Error>)
      modifies this`jissekiList
      ensures jissekiList == old(jissekiList) + KinmuhyoScan(book, p).items
      ensures err == KinmuhyoScan(book, p).error
    {
      if KinmuhyoSheet !in book {
        return None;
      }
      var worksheet := book[KinmuhyoSheet];
      var nengetsu := Text(worksheet, 2, 2);
      var name := Text(worksheet, 2, 3);
      var shainBango := Text(worksheet, 2, 4);
      ghost var h := Header(nengetsu, name, shainBango);
      ghost var start := jissekiList;
      ghost var added: seq<Jisseki> := [];
      var i := 4;
      PrependNil(JissekiFrom(worksheet, FirstRow, h, p));
      while i <= 100
        invariant 4 <= i <= 101
        invariant jissekiList == start + added
        invariant Prepend(added, JissekiFrom(worksheet, i, h, p)) == JissekiFrom(worksheet, FirstRow, h, p)
        decreases 101 - i
      {
        ghost var rest := JissekiFrom(worksheet, i, h, p);
        if Text(worksheet, i, 2) == "" || Text(worksheet, i, 2) == "0" {
          assert rest == Scan([], None);
          assert added + [] == added;
          break;
        }
        var hours := CellAt(worksheet, i, 4);
        if hours.None? {
          assert rest == Failed(NullValue(i, 4));
          return Some(NullValue(i, 4));
        }
        if hours.value != "0" {
          var id := p.integer(shainBango);
          if id.None? {
            assert rest == Failed(ParseFailure(shainBango));
            return Some(ParseFailure(shainBango));
          }
          var ym := p.yearMonth(nengetsu);
          if ym.None? {
            assert rest == Failed(ParseFailure(nengetsu));
            return Some(ParseFailure(nengetsu));
          }
          var code := CellAt(worksheet, i, 5);
          if code.None? {
            assert rest == Failed(NullValue(i, 5));
            return Some(NullValue(i, 5));
          }
          var jikan := p.decimal(hours.value);
          if jikan.None? {
            assert rest == Failed(ParseFailure(hours.value));
            return Some(ParseFailure(hours.value));
          }
          var jisseki := Jisseki(id.value, name, ym.value, code.value, Text(worksheet, i, 2), jikan.value);
          assert JissekiAt(worksheet, i, h, p) == Ok(jisseki);
          assert rest == Prepend([jisseki], JissekiFrom(worksheet, i + 1, h, p));
          PrependPrepend(added, [jisseki], JissekiFrom(worksheet, i + 1, h, p));
          jissekiList := jissekiList + [jisseki];
          added := added + [jisseki];
        } else {
          assert rest == JissekiFrom(worksheet, i + 1, h, p);
        }
        i := i + 1;
      }
      if i > 100 {
        assert added + [] == added;
      }
      return None;
    }

    /**
     * GetGenkahyo for fiscal month tsuki: finds the month's sheet (half-width
     * name first), then appends a record for every row with a customer and a
     * contract, carrying the category and the department down.
     */
    method GetGenkahyo(book: Book, tsuki: int, p: Parsers) returns (err: Option<Error>)
      modifies this`genkaList
      ensures genkaList == old(genkaList) + MonthScan(book, nen, tsuki, p).items
      ensures err == MonthScan(book, nen, tsuki, p).error
    {
      var sheetName := SheetNames.GetTsukiSheetName(tsuki);
      if sheetName.Err? {
        return Some(sheetName.error);
      }
      var (hankakuSheet, zenkakuSheet) := sheetName.value;
      var name;
      if hankakuSheet in book {
        name := hankakuSheet;
      } else if zenkakuSheet in book {
        name := zenkakuSheet;
      } else {
        return Some(MissingSheet(zenkakuSheet));
      }
      var ws := book[name];
      var usedRows := UsedRows(ws);
      if usedRows.None? {
        return Some(NoUsedRange(name));
      }
      var n := usedRows.value;
      assert SheetNames.MonthSheetName(book, tsuki) == Ok(name);
      assert MonthScan(book, nen, tsuki, p) == GenkaFrom(ws, 2, n, FiscalYearMonth(nen, tsuki), "", "", p);
      err := ReadCostRows(ws, n, tsuki, p);
    }

    /**
     * The row loop of GetGenkahyo on the month's sheet ws, whose last used
     * row is n.
     */
    method ReadCostRows(ws: Sheet, n: int, tsuki: int, p: Parsers) returns (err: Option<Error>)
      requires 1 <= tsuki <= 12 && 1 <= n
      modifies this`genkaList
      ensures genkaList == old(genkaList) + GenkaFrom(ws, 2, n, FiscalYearMonth(nen, tsuki), "", "", p).items
      ensures err == GenkaFrom(ws, 2, n, FiscalYearMonth(nen, tsuki), "", "", p).error
    {
      ghost var ym := FiscalYearMonth(nen, tsuki);
      ghost var start := genkaList;
      var curBunrui := "";
      var curBusho := "";
      var row := 2;
      while row <= n
        invariant 2 <= row <= n + 1
        invariant Prepend(genkaList, GenkaFrom(ws, row, n, ym, curBunrui, curBusho, p)) == Prepend(start, GenkaFrom(ws, 2, n, ym, "", "", p))
        decreases n + 1 - row
      {
        ghost var before := genkaList;
        ghost var rest := GenkaFrom(ws, row, n, ym, curBunrui, curBusho, p);
        ghost var cb, cd := curBunrui, curBusho;
        var bunrui := Text(ws, row, 1);
        if bunrui != "" && curBunrui != bunrui {
          curBunrui := bunrui;
        }
        var busho := Text(ws, row, 3);
        if busho != "" && curBusho != busho {
          curBusho := busho;
        }
        assert curBunrui == Resolve(Text(ws, row, 1), cb) && curBusho == Resolve(Text(ws, row, 3), cd);
        ghost var next := GenkaFrom(ws, row + 1, n, ym, curBunrui, curBusho, p);
        var kyakusakimei := Text(ws, row, 4);
        var keiyaku := Text(ws, row, 5);
        if kyakusakimei != "" && keiyaku != "" {
          var genka := CostRecord(ws, row, tsuki, curBunrui, curBusho, p);
          if genka.Err? {
            assert rest == Failed(genka.error);
            PrependOntoEnd(genkaList, rest);
            return Some(genka.error);
          }
          assert rest == Prepend([genka.value], next);
          PrependPrepend(before, [genka.value], next);
          genkaList := genkaList + [genka.value];
        } else {
          assert rest == next;
        }
        row := row + 1;
      }
      PrependOntoEnd(genkaList, GenkaFrom(ws, row, n, ym, curBunrui, curBusho, p));
      return None;
    }

    /**
     * The record GetGenkahyo builds from row `row` of the month's sheet: the
     * month's DateTime first, then decimal.Parse of the planned (column 9)
     * and actual (column 10) amounts, an empty cell counting as 0.
     */
    method CostRecord(ws: Sheet, row: int, tsuki: int, bunrui: string, busho: string, p: Parsers)
      returns (r: Result<Genka, Error>)
      requires 1 <= tsuki <= 12
      ensures r == GenkaAt(ws, row, FiscalYearMonth(nen, tsuki), bunrui, busho, p)
    {
      var nengetsu;
      if 1 <= tsuki <= 6 {
        nengetsu := YearMonth(nen + 1, tsuki);
      } else {
        nengetsu := YearMonth(nen, tsuki);
      }
      if !(1 <= nengetsu.year <= 9999) {
        return Err(InvalidDate(nengetsu.year, nengetsu.month, 1));
      }
      var yotei := CellAt(ws, row, 9);
      var jisseki := CellAt(ws, row, 10);
      var y := 0.0;
      if yotei.Some? {
        var v := p.decimal(yotei.value);
        if v.None? {
          return Err(ParseFailure(yotei.value));
        }
        y := v.value;
      }
      var j := 0.0;
      if jisseki.Some? {
        var v := p.decimal(jisseki.value);
        if v.None? {
          return Err(ParseFailure(jisseki.value));
        }
        j := v.value;
      }
      return Ok(Genka(nengetsu, bunrui, busho, Text(ws, row, 4), Text(ws, row, 5), y, j));
    }

    /** ReadGenkahyo on one cost workbook: the twelve months in order, up to the first exception. */
    method ReadGenkahyo(book: Book, p: Parsers) returns (err: Option<Error>)
      modifies this`genkaList
      ensures genkaList == old(genkaList) + MonthsFrom(book, nen, 1, p).items
      ensures err == MonthsFrom(book, nen, 1, p).error
    {
      ghost var start := genkaList;
      var tsuki := 1;
      while tsuki <= 12
        invariant 1 <= tsuki <= 13
        invariant Prepend(genkaList, MonthsFrom(book, nen, tsuki, p)) == Prepend(start, MonthsFrom(book, nen, 1, p))
        decreases 13 - tsuki
      {
        ghost var before := genkaList;
        ghost var month := MonthScan(book, nen, tsuki, p);
        ghost var later := MonthsFrom(book, nen, tsuki + 1, p);
        MonthsFromStep(book, nen, tsuki, p);
        var e := GetGenkahyo(book, tsuki, p);
        if e.Some? {
          assert Prepend(before, month) == Prepend(start, MonthsFrom(book, nen, 1, p));
          return e;
        }
        PrependPrepend(before, month.items, later);
        tsuki := tsuki + 1;
      }
      PrependOntoEnd(genkaList, MonthsFrom(book, nen, tsuki, p));
      return None;
    }

    /**
     * WriteResult: the employee detail sheet, then the project
     * profitability sheet, into the output workbook book.
     */
    method WriteResult(book: Book, p: Parsers, today: Date)
      returns (r: Result<(seq<KinmuRow>, seq<GenkaRow>), Error>)
      ensures r.Ok? ==>
        TankaTable(book, p).Ok? && KokyakuTable(book).Ok? &&
        IsDetail(jissekiList, TankaTable(book, p).value, r.value.0) &&
        IsProfit(SumGenka(genkaList), KokyakuTable(book).value, today, jissekiHaneiDay, r.value.1)
      ensures TankaTable(book, p).Err? ==> r == Err(TankaTable(book, p).error)
      ensures TankaTable(book, p).Ok? && KokyakuTable(book).Err? ==> r == Err(KokyakuTable(book).error)
      ensures TankaTable(book, p).Ok? && KokyakuTable(book).Ok? && UsedRangeError(book, DetailSheet).Some? ==>
        r == Err(UsedRangeError(book, DetailSheet).value)
      ensures TankaTable(book, p).Ok? && KokyakuTable(book).Ok? && UsedRangeError(book, DetailSheet).None? && r.Err? ==>
        EmployeeCost.IsFirstFailure(jissekiList, TankaTable(book, p).value, r.error) ||
        UsedRangeError(book, ProfitSheet) == Some(r.error) ||
        ProjectProfit.IsFirstFailure(SumGenka(genkaList), KokyakuTable(book).value, today, jissekiHaneiDay, r.error)
    {
      var kinmu := WriteResultKinmuhyo(book, jissekiList, p);
      if kinmu.Err? {
        return Err(kinmu.error);
      }
      var genka := WriteResultGenka(book, genkaList, today, jissekiHaneiDay);
      if genka.Err? {
        return Err(genka.error);
      }
      return Ok((kinmu.value, genka.value));
    }
  }
}
