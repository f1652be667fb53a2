/**
 * The two reference tables read from the output workbook before it is
 * rewritten: 顧客設定 (customer name and code) and 単価設定 (employee
 * standard rate). Each is scanned from row 2 and ends at its first empty
 * key cell; the lookups the writers make in them are First and
 * FirstOrDefault.
 */
module LookupTables {
  import opened Wrappers
  import opened Records
  import opened Workbook

  const KokyakuSheet: string := "顧客設定"
  const TankaSheet: string := "単価設定"

  /** The first row in from..last whose key column is empty, or last + 1 when there is none. */
  function KeyEnd(ws: Sheet, col: int, from: int, last: int): (e: int)
    requires from <= last + 1
    ensures from <= e <= last + 1
    ensures forall r :: from <= r < e ==> Text(ws, r, col) != ""
    ensures e <= last ==> Text(ws, e, col) == ""
    decreases last + 1 - from
  {
    if from > last || Text(ws, from, col) == "" then from else KeyEnd(ws, col, from + 1, last)
  }

  // ---------------------------------------------------------------- 顧客設定

  /** Rows row..last of the customer sheet, up to the first empty code (column 2). */
  function KokyakuFrom(ws: Sheet, row: int, last: int): seq<Kokyaku>
    decreases last + 1 - row
  {
    if row > last || Text(ws, row, 2) == "" then []
    else [Kokyaku(Text(ws, row, 2), Text(ws, row, 1))] + KokyakuFrom(ws, row + 1, last)
  }

  /**
   * The customer table holds one entry per row from `row` up to the first
   * empty code, each entry's code and name taken from columns 2 and 1.
   */
  lemma {:induction false} KokyakuFromRows(ws: Sheet, row: int, last: int)
    requires row <= last + 1
    ensures |KokyakuFrom(ws, row, last)| == KeyEnd(ws, 2, row, last) - row
    ensures forall i :: 0 <= i < |KokyakuFrom(ws, row, last)| ==>
      KokyakuFrom(ws, row, last)[i] == Kokyaku(Text(ws, row + i, 2), Text(ws, row + i, 1))
    decreases last + 1 - row
  {
    if row <= last && Text(ws, row, 2) != "" {
      KokyakuFromRows(ws, row + 1, last);
      var rest := KokyakuFrom(ws, row + 1, last);
      assert KokyakuFrom(ws, row, last) == [Kokyaku(Text(ws, row, 2), Text(ws, row, 1))] + rest;
      forall i | 1 <= i < |KokyakuFrom(ws, row, last)|
        ensures KokyakuFrom(ws, row, last)[i] == Kokyaku(Text(ws, row + i, 2), Text(ws, row + i, 1))
      {
        assert KokyakuFrom(ws, row, last)[i] == rest[i - 1];
      }
    }
  }

  /** What GetKokyaku returns, or the exception it raises when the sheet or its used range is missing. */
  function KokyakuTable(book: Book): Result<seq<Kokyaku>, Error>
  {
    if KokyakuSheet !in book then Err(MissingSheet(KokyakuSheet))
    else
      var ws := book[KokyakuSheet];
      match UsedRows(ws)
      case None => Err(NoUsedRange(KokyakuSheet))
      case Some(n) => Ok(KokyakuFrom(ws, 2, n))
  }

  method GetKokyaku(book: Book) returns (r: Result<seq<Kokyaku>, Error>)
    ensures r == KokyakuTable(book)
    ensures r.Ok? ==> forall i :: 0 <= i < |r.value| ==> r.value[i].code != ""
  {
    if KokyakuSheet !in book {
      return Err(MissingSheet(KokyakuSheet));
    }
    var ws := book[KokyakuSheet];
    var used := UsedRows(ws);
    if used.None? {
      return Err(NoUsedRange(KokyakuSheet));
    }
    var result: seq<Kokyaku> := [];
    var row := 2;
    while row <= used.value
      invariant 2 <= row <= used.value + 1
      invariant result + KokyakuFrom(ws, row, used.value) == KokyakuFrom(ws, 2, used.value)
      decreases used.value + 1 - row
    {
      // stop at the first row without a code
      if Text(ws, row, 2) == "" {
        assert KokyakuFrom(ws, row, used.value) == [];
        break;
      }
      result := result + [Kokyaku(Text(ws, row, 2), Text(ws, row, 1))];
      row := row + 1;
    }
    assert result == KokyakuFrom(ws, 2, used.value);
    assert KokyakuTable(book) == Ok(KokyakuFrom(ws, 2, used.value));
    KokyakuFromRows(ws, 2, used.value);
    return Ok(result);
  }

  /**
   * FirstOrDefault(e => e.Name == name)?.Code: the code of the first entry
   * with that name, or null when no entry has it.
   */
  function FindCode(kokyaku: seq<Kokyaku>, name: string): (c: Option<string>)
    ensures c.None? <==> forall i :: 0 <= i < |kokyaku| ==> kokyaku[i].name != name
    ensures c.Some? ==>
      exists i :: 0 <= i < |kokyaku| && kokyaku[i].name == name && kokyaku[i].code == c.value &&
        forall j :: 0 <= j < i ==> kokyaku[j].name != name
  {
    if kokyaku == [] then None
    else if kokyaku[0].name == name then Some(kokyaku[0].code)
    else
      var c := FindCode(kokyaku[1..], name);
      assert c.Some? ==>
        exists i :: 0 <= i < |kokyaku[1..]| && kokyaku[1..][i].name == name && kokyaku[1..][i].code == c.value &&
          forall j :: 0 <= j < i ==> kokyaku[1..][j].name != name;
      c
  }

  // ---------------------------------------------------------------- 単価設定

  /** One row of the rate sheet: int.Parse of the id (column 1), the name, decimal.Parse of the rate (column 3). */
  function TankaAt(ws: Sheet, row: int, p: Parsers): Result<Tanka, Error>
  {
    match p.integer(Text(ws, row, 1))
    case None => Err(ParseFailure(Text(ws, row, 1)))
    case Some(id) =>
      match p.decimal(Text(ws, row, 3))
      case None => Err(ParseFailure(Text(ws, row, 3)))
      case Some(rate) => Ok(Tanka(id, Text(ws, row, 2), rate))
  }

  /** Rows row..last of the rate sheet, up to the first empty id (column 1); a row that does not parse ends the run. */
  function TankaFrom(ws: Sheet, row: int, last: int, p: Parsers): Result<seq<Tanka>, Error>
    decreases last + 1 - row
  {
    if row > last || Text(ws, row, 1) == "" then Ok([])
    else
      match TankaAt(ws, row, p)
      case Err(e) => Err(e)
      case Ok(t) => PrependOk([t], TankaFrom(ws, row + 1, last, p))
  }

  /**
   * The rate table holds one entry per row from `row` up to the first empty
   * id exactly when every such row parses.
   */
  lemma {:induction false} TankaFromRows(ws: Sheet, row: int, last: int, p: Parsers)
    requires row <= last + 1
    ensures var r := TankaFrom(ws, row, last, p);
      (r.Ok? <==> forall q :: row <= q < KeyEnd(ws, 1, row, last) ==> TankaAt(ws, q, p).Ok?) &&
      (r.Ok? ==> |r.value| == KeyEnd(ws, 1, row, last) - row) &&
      (r.Ok? ==> forall i :: 0 <= i < |r.value| ==> TankaAt(ws, row + i, p) == Ok(r.value[i]))
    decreases last + 1 - row
  {
    if row <= last && Text(ws, row, 1) != "" {
      TankaFromRows(ws, row + 1, last, p);
      var r := TankaFrom(ws, row, last, p);
      if TankaAt(ws, row, p).Ok? && r.Ok? {
        var rest := TankaFrom(ws, row + 1, last, p);
        forall i | 1 <= i < |r.value| ensures TankaAt(ws, row + i, p) == Ok(r.value[i]) {
          assert r.value[i] == rest.value[i - 1];
        }
      }
    }
  }

  /** Otherwise the run ends with the error of the first row up to the first empty id that does not parse. */
  lemma {:induction false} TankaFromFirstError(ws: Sheet, row: int, last: int, p: Parsers)
    requires row <= last + 1
    ensures var r := TankaFrom(ws, row, last, p);
      r.Err? ==>
        exists q :: row <= q < KeyEnd(ws, 1, row, last) && TankaAt(ws, q, p) == Err(r.error) &&
          forall q' :: row <= q' < q ==> TankaAt(ws, q', p).Ok?
    decreases last + 1 - row
  {
    if row <= last && Text(ws, row, 1) != "" {
      var r := TankaFrom(ws, row, last, p);
      if TankaAt(ws, row, p).Ok? && r.Err? {
        TankaFromFirstError(ws, row + 1, last, p);
        var rest := TankaFrom(ws, row + 1, last, p);
        var q :| row + 1 <= q < KeyEnd(ws, 1, row + 1, last) && TankaAt(ws, q, p) == Err(rest.error) &&
          forall q' :: row + 1 <= q' < q ==> TankaAt(ws, q', p).Ok?;
        assert TankaAt(ws, q, p) == Err(r.error);
      } else if r.Err? {
        assert TankaAt(ws, row, p) == Err(r.error);
      }
    }
  }

  /** What GetTanka returns, or the exception it raises. */
  function TankaTable(book: Book, p: Parsers): Result<seq<Tanka>, Error>
  {
    if TankaSheet !in book then Err(MissingSheet(TankaSheet))
    else
      var ws := book[TankaSheet];
      match UsedRows(ws)
      case None => Err(NoUsedRange(TankaSheet))
      case Some(n) => TankaFrom(ws, 2, n, p)
  }

  method GetTanka(book: Book, p: Parsers) returns (r: Result<seq<Tanka>, Error>)
    ensures r == TankaTable(book, p)
  {
    if TankaSheet !in book {
      return Err(MissingSheet(TankaSheet));
    }
    var ws := book[TankaSheet];
    var used := UsedRows(ws);
    if used.None? {
      return Err(NoUsedRange(TankaSheet));
    }
    var result: seq<Tanka> := [];
    var row := 2;
    PrependOkNil(TankaFrom(ws, 2, used.value, p));
    while row <= used.value
      invariant 2 <= row <= used.value + 1
      invariant PrependOk(result, TankaFrom(ws, row, used.value, p)) == TankaFrom(ws, 2, used.value, p)
      decreases used.value + 1 - row
    {
      // stop at the first row without an employee number
      if Text(ws, row, 1) == "" {
        assert TankaFrom(ws, row, used.value, p) == Ok([]);
        assert result + [] == result;
        break;
      }
      var t := TankaAt(ws, row, p);
      if t.Err? {
        return Err(t.error);
      }
      PrependOkAppend(result, [t.value], TankaFrom(ws, row + 1, used.value, p));
      result := result + [t.value];
      row := row + 1;
    }
    assert result + [] == result;
    assert TankaTable(book, p) == TankaFrom(ws, 2, used.value, p);
    return Ok(result);
  }

  /**
   * tanka.Where(e => e.ShainBango == id).Select(e => e.SetteiTanka).First():
   * the rate of the first entry for the employee; None stands for the
   * InvalidOperationException First throws when there is no such entry.
   */
  function FindRate(tanka: seq<Tanka>, id: int): (r: Option<real>)
    ensures r.None? <==> forall i :: 0 <= i < |tanka| ==> tanka[i].shainBango != id
    ensures r.Some? ==>
      exists i :: 0 <= i < |tanka| && tanka[i].shainBango == id && tanka[i].setteiTanka == r.value &&
        forall j :: 0 <= j < i ==> tanka[j].shainBango != id
  {
    if tanka == [] then None
    else if tanka[0].shainBango == id then Some(tanka[0].setteiTanka)
    else
      var r := FindRate(tanka[1..], id);
      assert r.Some? ==>
        exists i :: 0 <= i < |tanka[1..]| && tanka[1..][i].shainBango == id && tanka[1..][i].setteiTanka == r.value &&
          forall j :: 0 <= j < i ==> tanka[1..][j].shainBango != id;
      r
  }
}
