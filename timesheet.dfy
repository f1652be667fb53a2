/**
 * The timesheet extractor: the sheet プロジェクト月計 of one timesheet
 * workbook holds the month, the employee name and the employee number in
 * row 2, and one line per customer from row 4 on.
 */
module Timesheet {
  import opened Wrappers
  import opened Records
  import opened Workbook

  const KinmuhyoSheet: string := "プロジェクト月計"
  const FirstRow: int := 4
  const LastRow: int := 100

  /** The texts of cells B2 (month, formatted yyyy/mm), C2 (name) and D2 (employee number). */
  datatype Header = Header(nengetsu: string, name: string, shainBango: string)

  function HeaderOf(ws: Sheet): Header
  {
    Header(Text(ws, 2, 2), Text(ws, 2, 3), Text(ws, 2, 4))
  }

  /** The scan ends at a row whose customer name (column B) is empty or "0". */
  predicate IsEnd(ws: Sheet, i: int)
  {
    Text(ws, i, 2) == "" || Text(ws, i, 2) == "0"
  }

  /** A row whose hours (column D) print as "0" is skipped. */
  predicate NoHours(ws: Sheet, i: int)
  {
    CellAt(ws, i, 4) == Some("0")
  }

  /**
   * The record built from row i, or the exception that building it raises,
   * in the order the source evaluates: the hours cell is dereferenced by the
   * "0" test, then int.Parse of the employee number, ParseExact of the
   * month, the customer code cell (column E) and decimal.Parse of the hours.
   */
  function JissekiAt(ws: Sheet, i: int, h: Header, p: Parsers): Result<Jisseki, Error>
  {
    match CellAt(ws, i, 4)
    case None => Err(NullValue(i, 4))
    case Some(hours) =>
      match p.integer(h.shainBango)
      case None => Err(ParseFailure(h.shainBango))
      case Some(id) =>
        match p.yearMonth(h.nengetsu)
        case None => Err(ParseFailure(h.nengetsu))
        case Some(ym) =>
          match CellAt(ws, i, 5)
          case None => Err(NullValue(i, 5))
          case Some(code) =>
            match p.decimal(hours)
            case None => Err(ParseFailure(hours))
            case Some(jikan) => Ok(Jisseki(id, h.name, ym, code, Text(ws, i, 2), jikan))
  }

  /** The records the loop over rows i..100 appends, and the exception that stops it, if any. */
  function JissekiFrom(ws: Sheet, i: int, h: Header, p: Parsers): Scan<Jisseki>
    decreases LastRow + 1 - i
  {
    if i > LastRow || IsEnd(ws, i) then Scan([], None)
    else if NoHours(ws, i) then JissekiFrom(ws, i + 1, h, p)
    else
      match JissekiAt(ws, i, h, p)
      case Err(e) => Failed(e)
      case Ok(j) => Cons(j, JissekiFrom(ws, i + 1, h, p))
  }

  /** What ReadKinmuhyo appends for one workbook: nothing when the sheet is absent. */
  function KinmuhyoScan(book: Book, p: Parsers): Scan<Jisseki>
  {
    if KinmuhyoSheet !in book then Scan([], None)
    else
      var ws := book[KinmuhyoSheet];
      JissekiFrom(ws, FirstRow, HeaderOf(ws), p)
  }

  /** The rows from i on that the scan turns into records, in sheet order. */
  function RecordRows(ws: Sheet, i: int): seq<int>
    decreases LastRow + 1 - i
  {
    if i > LastRow || IsEnd(ws, i) then []
    else if NoHours(ws, i) then RecordRows(ws, i + 1)
    else [i] + RecordRows(ws, i + 1)
  }

  /** No row from i to r ends the scan. */
  ghost predicate Reaches(ws: Sheet, i: int, r: int)
  {
    forall q :: i <= q <= r ==> !IsEnd(ws, q)
  }

  lemma ReachesStep(ws: Sheet, i: int, r: int)
    requires i < r
    ensures Reaches(ws, i, r) <==> !IsEnd(ws, i) && Reaches(ws, i + 1, r)
  {
    if !IsEnd(ws, i) && Reaches(ws, i + 1, r) {
      forall q | i <= q <= r ensures !IsEnd(ws, q) {
        if q > i {
          assert i + 1 <= q <= r;
        }
      }
    }
  }

  /**
   * A row yields a record exactly when it lies in i..100, no row from i up
   * to it ends the scan, and its hours do not print as "0".
   */
  lemma {:induction false} RecordRowsSpec(ws: Sheet, i: int)
    ensures forall r :: r in RecordRows(ws, i) <==> i <= r <= LastRow && Reaches(ws, i, r) && !NoHours(ws, r)
    decreases LastRow + 1 - i
  {
    if i <= LastRow && !IsEnd(ws, i) {
      RecordRowsSpec(ws, i + 1);
      var rest := RecordRows(ws, i + 1);
      forall r
        ensures r in RecordRows(ws, i) <==> i <= r <= LastRow && Reaches(ws, i, r) && !NoHours(ws, r)
      {
        if r == i {
          assert Reaches(ws, i, i);
        } else if i < r {
          ReachesStep(ws, i, r);
          assert r in RecordRows(ws, i) <==> r in rest;
        } else {
          RecordRowsBelow(ws, i + 1, r);
        }
      }
    } else if i <= LastRow {
      forall r | i <= r
        ensures !Reaches(ws, i, r)
      {
        assert i <= i <= r && IsEnd(ws, i);
      }
    }
  }

  /** No record comes from a row above i. */
  lemma {:induction false} RecordRowsBelow(ws: Sheet, i: int, r: int)
    requires r < i
    ensures r !in RecordRows(ws, i)
    decreases LastRow + 1 - i
  {
    if i <= LastRow && !IsEnd(ws, i) {
      RecordRowsBelow(ws, i + 1, r);
    }
  }

  /** Records come in increasing row order. */
  lemma {:induction false} RecordRowsSorted(ws: Sheet, i: int)
    ensures forall a, b :: 0 <= a < b < |RecordRows(ws, i)| ==> RecordRows(ws, i)[a] < RecordRows(ws, i)[b]
    decreases LastRow + 1 - i
  {
    if i <= LastRow && !IsEnd(ws, i) {
      RecordRowsSorted(ws, i + 1);
      RecordRowsSpec(ws, i + 1);
      var rest := RecordRows(ws, i + 1);
      forall k | 0 <= k < |rest| ensures rest[k] > i {
        assert rest[k] in rest;
      }
    }
  }

  /**
   * The scan's records are those of its rows, one per row, in order, up to
   * the first row whose record cannot be built; that row's exception is the
   * one the scan stops with, and without one every row yields a record.
   */
  lemma {:induction false} JissekiFromRows(ws: Sheet, i: int, h: Header, p: Parsers)
    ensures var s, rows := JissekiFrom(ws, i, h, p), RecordRows(ws, i);
      |s.items| <= |rows| &&
      (forall k :: 0 <= k < |s.items| ==> JissekiAt(ws, rows[k], h, p) == Ok(s.items[k])) &&
      (s.error.None? <==> |s.items| == |rows|) &&
      (s.error.Some? ==> JissekiAt(ws, rows[|s.items|], h, p) == Err(s.error.value))
    decreases LastRow + 1 - i
  {
    if i <= LastRow && !IsEnd(ws, i) {
      JissekiFromRows(ws, i + 1, h, p);
      if !NoHours(ws, i) && JissekiAt(ws, i, h, p).Ok? {
        var s, rows := JissekiFrom(ws, i, h, p), RecordRows(ws, i);
        var s', rows' := JissekiFrom(ws, i + 1, h, p), RecordRows(ws, i + 1);
        assert s.items == [JissekiAt(ws, i, h, p).value] + s'.items;
        assert rows == [i] + rows';
        forall k | 1 <= k < |s.items| ensures JissekiAt(ws, rows[k], h, p) == Ok(s.items[k]) {
          assert rows[k] == rows'[k - 1] && s.items[k] == s'.items[k - 1];
        }
      }
    }
  }
}
