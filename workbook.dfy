/**
 * A workbook as the program sees it through EPPlus: named sheets holding
 * a grid of optional cell texts. Row and column numbers are 1-based, as in
 * ws.Cells[row, col]; a cell outside the stored grid is empty.
 */
module Workbook {
  import opened Wrappers
  import opened Records

  /** None is an empty cell (Value null, Text ""); Some(s) a cell whose Text and Value.ToString() are s. */
  type Cell = Option<string>

  /** ws[r - 1][c - 1] is the cell at row r, column c. */
  type Sheet = seq<seq<Cell>>

  /** pkg.Workbook.Worksheets[name] is book[name] when name is in book, and null otherwise. */
  type Book = map<string, Sheet>

  function CellAt(ws: Sheet, row: int, col: int): Cell
  {
    if 1 <= row <= |ws| && 1 <= col <= |ws[row - 1]| then ws[row - 1][col - 1] else None
  }

  /** ws.Cells[row, col].Text: never null, "" for an empty cell. */
  function Text(ws: Sheet, row: int, col: int): string
  {
    match CellAt(ws, row, col)
    case None => ""
    case Some(s) => s
  }

  predicate RowUsed(r: seq<Cell>)
  {
    exists c :: 0 <= c < |r| && r[c].Some?
  }

  /** Row `row` (1-based) exists and holds a value. */
  predicate UsedAt(ws: Sheet, row: int)
  {
    1 <= row <= |ws| && RowUsed(ws[row - 1])
  }

  /** The 1-based number of the last row holding a value, or 0 when there is none. */
  function LastUsedRow(ws: Sheet): (n: nat)
    ensures n <= |ws|
    ensures n > 0 ==> UsedAt(ws, n)
    ensures forall r :: n < r <= |ws| ==> !UsedAt(ws, r)
  {
    if ws == [] then 0
    else if RowUsed(ws[|ws| - 1]) then |ws|
    else
      var prefix := ws[..|ws| - 1];
      assert forall r :: UsedAt(prefix, r) <==> r < |ws| && UsedAt(ws, r);
      LastUsedRow(prefix)
  }

  /** The 1-based number of the first row holding a value, or |ws| + 1 when there is none. */
  function FirstUsedRow(ws: Sheet, from: nat): (n: nat)
    requires 1 <= from <= |ws| + 1
    ensures from <= n <= |ws| + 1
    ensures n <= |ws| ==> UsedAt(ws, n)
    ensures forall r :: from <= r < n ==> !UsedAt(ws, r)
    decreases |ws| + 1 - from
  {
    if from > |ws| then from
    else if RowUsed(ws[from - 1]) then from
    else FirstUsedRow(ws, from + 1)
  }

  /**
   * ws.Cells[ws.Dimension.Address].Rows: the number of rows of the used
   * range, from its first used row to its last; None when Dimension is
   * null because no cell holds a value.
   */
  function UsedRows(ws: Sheet): (r: Option<nat>)
    ensures r.None? <==> forall row :: 1 <= row <= |ws| ==> !UsedAt(ws, row)
    ensures r.Some? ==> 1 <= r.value <= LastUsedRow(ws)
  {
    var last := LastUsedRow(ws);
    if last == 0 then None else Some(last - FirstUsedRow(ws, 1) + 1)
  }

  /**
   * Whether pkg.Workbook.Worksheets[name].Cells[ws.Dimension.Address]
   * throws: the sheet is missing, or it has no used cell.
   */
  function UsedRangeError(book: Book, name: string): (e: Option<Error>)
    ensures name !in book ==> e == Some(MissingSheet(name))
    ensures name in book ==>
      (e.None? <==> exists row :: 1 <= row <= |book[name]| && UsedAt(book[name], row))
    ensures name in book && e.Some? ==> e == Some(NoUsedRange(name))
    ensures e.None? ==> UsedRows(book[name]).Some?
  {
    if name !in book then Some(MissingSheet(name))
    else if UsedRows(book[name]).None? then Some(NoUsedRange(name))
    else None
  }

  /**
   * The scans use the row count as the number of the last row. That is the
   * last used row exactly when the sheet's first row holds a value.
   */
  lemma UsedRowsFromTop(ws: Sheet)
    requires UsedAt(ws, 1)
    ensures UsedRows(ws) == Some(LastUsedRow(ws))
  {
  }

  /** When rows above the data are empty, the row count falls short of the last used row. */
  lemma UsedRowsBelowTop(ws: Sheet, k: nat)
    requires 1 <= k < |ws| && forall r :: 1 <= r <= k ==> !UsedAt(ws, r)
    requires UsedAt(ws, |ws|)
    ensures UsedRows(ws) == Some(|ws| - FirstUsedRow(ws, 1) + 1)
    ensures UsedRows(ws).value <= |ws| - k
  {
  }
}
