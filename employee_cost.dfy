/**
 * The employee detail sheet 社員別実績時間明細: for every timesheet record,
 * the employee's total hours, the converted rate and the record's share of
 * it (its direct cost).
 */
module EmployeeCost {
  import opened Wrappers
  import opened Records
  import opened Workbook
  import opened LookupTables

  const DetailSheet: string := "社員別実績時間明細"

  /** One output row: columns 1 to 9 of the detail sheet. */
  datatype KinmuRow = KinmuRow(
    shainBango: int,
    shainName: string,
    nengetsu: YearMonth,
    kyakusakiCode: string,
    kyakusakiName: string,
    jikan: real,
    totalJikan: real,
    kansanTanka: real,
    chokusetsuhi: real)

  /** The records of employee id, in order: id's group under GroupBy(ShainBango). */
  function RecordsOf(list: seq<Jisseki>, id: int): seq<Jisseki>
  {
    if list == [] then []
    else (if list[0].shainBango == id then [list[0]] else []) + RecordsOf(list[1..], id)
  }

  function Hours(list: seq<Jisseki>): real
  {
    if list == [] then 0.0 else list[0].jikan + Hours(list[1..])
  }

  /** The Total of id's group in sumJikan. */
  function TotalJikan(list: seq<Jisseki>, id: int): real
  {
    Hours(RecordsOf(list, id))
  }

  /** Record j's contribution to employee id's total hours. */
  function HoursFor(j: Jisseki, id: int): real
  {
    if j.shainBango == id then j.jikan else 0.0
  }

  lemma TotalJikanStep(list: seq<Jisseki>, i: int, id: int)
    requires 0 <= i < |list|
    ensures TotalJikan(list[i..], id) == HoursFor(list[i], id) + TotalJikan(list[i + 1..], id)
  {
    assert list[i..][0] == list[i] && list[i..][1..] == list[i + 1..];
    var rest := RecordsOf(list[i + 1..], id);
    if list[i].shainBango == id {
      assert RecordsOf(list[i..], id) == [list[i]] + rest;
      assert ([list[i]] + rest)[1..] == rest;
    } else {
      assert RecordsOf(list[i..], id) == [] + rest == rest;
    }
  }

  /**
   * The converted rate: above 150 hours, the standard rate scaled by
   * total / 150; otherwise the total hours themselves.
   */
  function KansanTanka(setteiTanka: real, totalJikan: real): real
  {
    if totalJikan > 150.0 then setteiTanka * totalJikan / 150.0 else totalJikan
  }

  /** The record's share of the converted rate: converted rate * hours / total hours. */
  function Share(kansanTanka: real, jikan: real, totalJikan: real): real
    requires totalJikan != 0.0
  {
    kansanTanka * jikan / totalJikan
  }

  /**
   * The row written for record j: its fields, the employee's total hours,
   * the converted rate and the direct cost kansanTanka * jikan / total.
   * First() throws when the employee has no rate entry; the decimal division
   * throws when the total is zero.
   */
  function DetailRow(list: seq<Jisseki>, tanka: seq<Tanka>, j: Jisseki): Result<KinmuRow, Error>
  {
    match FindRate(tanka, j.shainBango)
    case None => Err(NoMatchingTanka(j.shainBango))
    case Some(rate) =>
      var total := TotalJikan(list, j.shainBango);
      var kansan := KansanTanka(rate, total);
      if total == 0.0 then Err(DivideByZero)
      else Ok(KinmuRow(j.shainBango, j.shainName, j.nengetsu, j.kyakusakiCode, j.kyakusakiName,
                       j.jikan, total, kansan, Share(kansan, j.jikan, total)))
  }

  ghost predicate RowFor(list: seq<Jisseki>, tanka: seq<Tanka>, j: Jisseki, row: KinmuRow)
  {
    DetailRow(list, tanka, j) == Ok(row)
  }

  ghost predicate Writable(list: seq<Jisseki>, tanka: seq<Tanka>, j: Jisseki)
  {
    DetailRow(list, tanka, j).Ok?
  }

  ghost predicate FailsWith(list: seq<Jisseki>, tanka: seq<Tanka>, j: Jisseki, e: Error)
  {
    DetailRow(list, tanka, j) == Err(e)
  }

  /** rows is the detail sheet of list: one row per record, in the records' order. */
  ghost predicate IsDetail(list: seq<Jisseki>, tanka: seq<Tanka>, rows: seq<KinmuRow>)
  {
    |rows| == |list| && forall k :: 0 <= k < |list| ==> RowFor(list, tanka, list[k], rows[k])
  }

  /** e is the exception of the first record whose row cannot be written. */
  ghost predicate IsFirstFailure(list: seq<Jisseki>, tanka: seq<Tanka>, e: Error)
  {
    exists k :: 0 <= k < |list| && FailsWith(list, tanka, list[k], e) &&
      forall q :: 0 <= q < k ==> Writable(list, tanka, list[q])
  }

  /**
   * WriteResultKinmuhyo: reads the rate table and the customer table,
   * checks the detail sheet, then writes one row per record.
   */
  method WriteResultKinmuhyo(book: Book, list: seq<Jisseki>, p: Parsers) returns (r: Result<seq<KinmuRow>, Error>)
    ensures TankaTable(book, p).Err? ==> r == Err(TankaTable(book, p).error)
    ensures TankaTable(book, p).Ok? && KokyakuTable(book).Err? ==> r == Err(KokyakuTable(book).error)
    ensures TankaTable(book, p).Ok? && KokyakuTable(book).Ok? && UsedRangeError(book, DetailSheet).Some? ==>
      r == Err(UsedRangeError(book, DetailSheet).value)
    ensures TankaTable(book, p).Ok? && KokyakuTable(book).Ok? && UsedRangeError(book, DetailSheet).None? ==>
      (r.Ok? ==> IsDetail(list, TankaTable(book, p).value, r.value)) &&
      (r.Err? ==> IsFirstFailure(list, TankaTable(book, p).value, r.error))
  {
    // the rate table
    var t := GetTanka(book, p);
    if t.Err? {
      return Err(t.error);
    }
    var tanka := t.value;
    // the customer table: read for its exception only
    var kokyaku := GetKokyaku(book);
    if kokyaku.Err? {
      return Err(kokyaku.error);
    }
    var sheetError := UsedRangeError(book, DetailSheet);
    if sheetError.Some? {
      return Err(sheetError.value);
    }
    r := DetailRows(list, tanka);
  }

  /** The row loop of WriteResultKinmuhyo, with the rate table tanka. */
  method DetailRows(list: seq<Jisseki>, tanka: seq<Tanka>) returns (r: Result<seq<KinmuRow>, Error>)
    ensures r.Ok? ==> IsDetail(list, tanka, r.value)
    ensures r.Err? ==> IsFirstFailure(list, tanka, r.error)
  {
    var rows: seq<KinmuRow> := [];
    var i := 0;
    while i < |list|
      invariant 0 <= i <= |list| && |rows| == i
      invariant forall k :: 0 <= k < i ==> RowFor(list, tanka, list[k], rows[k])
    {
      var jisseki := list[i];
      var totalJikan := TotalJikan(list, jisseki.shainBango);
      var setteiTanka := FindRate(tanka, jisseki.shainBango);
      if setteiTanka.None? {
        assert FailsWith(list, tanka, list[i], NoMatchingTanka(jisseki.shainBango));
        return Err(NoMatchingTanka(jisseki.shainBango));
      }
      var kansanTanka := 0.0;
      if totalJikan > 150.0 {
        // above 150 hours the standard rate is scaled up
        kansanTanka := setteiTanka.value * totalJikan / 150.0;
      } else {
        kansanTanka := totalJikan;
      }
      assert kansanTanka == KansanTanka(setteiTanka.value, totalJikan);
      if totalJikan == 0.0 {
        assert FailsWith(list, tanka, list[i], DivideByZero);
        return Err(DivideByZero);
      }
      // the record's share of the converted rate
      var row := KinmuRow(jisseki.shainBango, jisseki.shainName, jisseki.nengetsu, jisseki.kyakusakiCode,
                          jisseki.kyakusakiName, jisseki.jikan, totalJikan, kansanTanka,
                          Share(kansanTanka, jisseki.jikan, totalJikan));
      assert FindRate(tanka, list[i].shainBango) == Some(setteiTanka.value);
      assert DetailRow(list, tanka, jisseki) == Ok(row);
      assert RowFor(list, tanka, list[i], row);
      rows := rows + [row];
      i := i + 1;
    }
    return Ok(rows);
  }

  // ---------------------------------------------------------------- properties

  /**
   * What row k of the detail sheet holds: record k's own fields, its
   * employee's total hours, the converted rate from the employee's first
   * rate entry, and the direct cost converted rate * hours / total.
   */
  lemma DetailRowFields(list: seq<Jisseki>, tanka: seq<Tanka>, rows: seq<KinmuRow>, k: int)
    requires IsDetail(list, tanka, rows) && 0 <= k < |list|
    ensures var j, row := list[k], rows[k];
      row.shainBango == j.shainBango && row.shainName == j.shainName && row.nengetsu == j.nengetsu &&
      row.kyakusakiCode == j.kyakusakiCode && row.kyakusakiName == j.kyakusakiName && row.jikan == j.jikan
    ensures rows[k].totalJikan == TotalJikan(list, list[k].shainBango) != 0.0
    ensures FindRate(tanka, list[k].shainBango).Some?
    ensures rows[k].kansanTanka == KansanTanka(FindRate(tanka, list[k].shainBango).value, rows[k].totalJikan)
    ensures rows[k].chokusetsuhi == Share(rows[k].kansanTanka, list[k].jikan, rows[k].totalJikan)
  {
    var j := list[k];
    assert RowFor(list, tanka, j, rows[k]);
    DetailRowOk(list, tanka, j);
  }

  /** The same, for one record whose row can be written. */
  lemma DetailRowOk(list: seq<Jisseki>, tanka: seq<Tanka>, j: Jisseki)
    requires DetailRow(list, tanka, j).Ok?
    ensures var row := DetailRow(list, tanka, j).value;
      row.shainBango == j.shainBango && row.shainName == j.shainName && row.nengetsu == j.nengetsu &&
      row.kyakusakiCode == j.kyakusakiCode && row.kyakusakiName == j.kyakusakiName && row.jikan == j.jikan &&
      row.totalJikan == TotalJikan(list, j.shainBango) != 0.0 &&
      FindRate(tanka, j.shainBango).Some? &&
      row.kansanTanka == KansanTanka(FindRate(tanka, j.shainBango).value, row.totalJikan) &&
      row.chokusetsuhi == Share(row.kansanTanka, j.jikan, row.totalJikan)
  {
  }

  /** Every record of one employee shows the same total hours and the same converted rate. */
  lemma SameEmployeeSameTotals(list: seq<Jisseki>, tanka: seq<Tanka>, rows: seq<KinmuRow>, a: int, b: int)
    requires IsDetail(list, tanka, rows)
    requires 0 <= a < |list| && 0 <= b < |list| && list[a].shainBango == list[b].shainBango
    ensures rows[a].totalJikan == rows[b].totalJikan
    ensures rows[a].kansanTanka == rows[b].kansanTanka
  {
    DetailRowFields(list, tanka, rows, a);
    DetailRowFields(list, tanka, rows, b);
  }

  /** Once above 150 hours, the converted rate does not fall as the hours grow (for a non-negative rate). */
  lemma KansanTankaMonotone(setteiTanka: real, t1: real, t2: real)
    requires setteiTanka >= 0.0 && 150.0 < t1 <= t2
    ensures KansanTanka(setteiTanka, t1) <= KansanTanka(setteiTanka, t2)
  {
    assert setteiTanka * t1 <= setteiTanka * t2;
  }

  /** The rows of employee id, in order. */
  function RowsOf(rows: seq<KinmuRow>, id: int): seq<KinmuRow>
  {
    if rows == [] then []
    else (if rows[0].shainBango == id then [rows[0]] else []) + RowsOf(rows[1..], id)
  }

  function Costs(rows: seq<KinmuRow>): real
  {
    if rows == [] then 0.0 else rows[0].chokusetsuhi + Costs(rows[1..])
  }

  /** The sum of the direct costs of employee id's rows. */
  function DirectCostOf(rows: seq<KinmuRow>, id: int): real
  {
    Costs(RowsOf(rows, id))
  }

  /** Row's contribution to employee id's direct costs. */
  function CostFor(row: KinmuRow, id: int): real
  {
    if row.shainBango == id then row.chokusetsuhi else 0.0
  }

  lemma DirectCostOfStep(rows: seq<KinmuRow>, i: int, id: int)
    requires 0 <= i < |rows|
    ensures DirectCostOf(rows[i..], id) == CostFor(rows[i], id) + DirectCostOf(rows[i + 1..], id)
  {
    assert rows[i..][0] == rows[i] && rows[i..][1..] == rows[i + 1..];
    var rest := RowsOf(rows[i + 1..], id);
    if rows[i].shainBango == id {
      assert RowsOf(rows[i..], id) == [rows[i]] + rest;
      assert ([rows[i]] + rest)[1..] == rest;
    } else {
      assert RowsOf(rows[i..], id) == [] + rest == rest;
    }
  }

  /** Shares add up: the share of a sum of hours is the sum of the shares. */
  lemma ShareSum(sum: real, c: real, next: real, hours: real, h: real, rest: real, kansan: real, total: real)
    requires total != 0.0
    requires sum == c + next && hours == h + rest
    requires c == Share(kansan, h, total) && next == Share(kansan, rest, total)
    ensures sum == Share(kansan, hours, total)
  {
  }

  /** Row i's contribution to id's direct costs is id's converted rate times record i's contribution to id's hours, over the total. */
  lemma RowShare(list: seq<Jisseki>, tanka: seq<Tanka>, rows: seq<KinmuRow>,
                 id: int, kansan: real, total: real, i: int)
    requires IsDetail(list, tanka, rows)
    requires total == TotalJikan(list, id) && total != 0.0
    requires FindRate(tanka, id).Some? && kansan == KansanTanka(FindRate(tanka, id).value, total)
    requires 0 <= i < |list|
    ensures CostFor(rows[i], id) == Share(kansan, HoursFor(list[i], id), total)
  {
    DetailRowFields(list, tanka, rows, i);
    var row := rows[i];
    if list[i].shainBango == id {
      assert row.totalJikan == total && row.kansanTanka == kansan;
    } else {
      assert row.shainBango != id;
      assert Share(kansan, 0.0, total) == 0.0;
    }
  }

  lemma ShareOfTotal(kansan: real, total: real)
    requires total != 0.0
    ensures Share(kansan, total, total) == kansan
  {
  }

  lemma ShareAtOwnTotal(jikan: real, total: real)
    requires total != 0.0
    ensures Share(total, jikan, total) == jikan
  {
  }

  /** Every row's contribution to id's direct costs is id's converted rate kansan times the record's hours, over total. */
  ghost predicate Apportioned(list: seq<Jisseki>, rows: seq<KinmuRow>, id: int, kansan: real, total: real)
  {
    total != 0.0 && |rows| == |list| &&
    forall q :: 0 <= q < |list| ==> CostFor(rows[q], id) == Share(kansan, HoursFor(list[q], id), total)
  }

  lemma {:induction false} DirectCostOfSuffix(list: seq<Jisseki>, rows: seq<KinmuRow>,
                                              id: int, kansan: real, total: real, i: int)
    requires Apportioned(list, rows, id, kansan, total)
    requires 0 <= i <= |list|
    ensures DirectCostOf(rows[i..], id) == Share(kansan, TotalJikan(list[i..], id), total)
    decreases |list| - i
  {
    if i < |list| {
      DirectCostOfSuffix(list, rows, id, kansan, total, i + 1);
      TotalJikanStep(list, i, id);
      DirectCostOfStep(rows, i, id);
      ShareSum(DirectCostOf(rows[i..], id), CostFor(rows[i], id), DirectCostOf(rows[i + 1..], id),
               TotalJikan(list[i..], id), HoursFor(list[i], id), TotalJikan(list[i + 1..], id), kansan, total);
    } else {
      assert rows[i..] == [] && list[i..] == [];
    }
  }

  /**
   * The apportionment redistributes the converted rate exactly: an
   * employee's direct costs add up to that employee's converted rate.
   */
  lemma DirectCostsSumToKansanTanka(list: seq<Jisseki>, tanka: seq<Tanka>, rows: seq<KinmuRow>, k: int)
    requires IsDetail(list, tanka, rows) && 0 <= k < |list|
    ensures DirectCostOf(rows, list[k].shainBango) == rows[k].kansanTanka
  {
    var id := list[k].shainBango;
    DetailRowFields(list, tanka, rows, k);
    var total := TotalJikan(list, id);
    forall q | 0 <= q < |list|
      ensures CostFor(rows[q], id) == Share(rows[k].kansanTanka, HoursFor(list[q], id), total)
    {
      RowShare(list, tanka, rows, id, rows[k].kansanTanka, total, q);
    }
    DirectCostOfSuffix(list, rows, id, rows[k].kansanTanka, total, 0);
    assert rows[0..] == rows && list[0..] == list;
    ShareOfTotal(rows[k].kansanTanka, total);
  }

  /** At or below 150 hours the converted rate is the total, so each record's direct cost is its own hours. */
  lemma SmallTotalCostIsHours(list: seq<Jisseki>, tanka: seq<Tanka>, rows: seq<KinmuRow>, k: int)
    requires IsDetail(list, tanka, rows) && 0 <= k < |list|
    ensures TotalJikan(list, list[k].shainBango) <= 150.0 ==>
      rows[k].kansanTanka == rows[k].totalJikan && rows[k].chokusetsuhi == list[k].jikan
  {
    DetailRowFields(list, tanka, rows, k);
    ShareAtOwnTotal(list[k].jikan, rows[k].totalJikan);
  }

  /**
   * Employee 5 with 80 and 100 hours at rate 3000: total 180, converted
   * rate 3000 * 180 / 150 = 3600, direct costs 1600 and 2000.
   */
  lemma WorkedExample(name: string, ym: YearMonth, c1: string, n1: string, c2: string, n2: string)
    ensures var list := [Jisseki(5, name, ym, c1, n1, 80.0), Jisseki(5, name, ym, c2, n2, 100.0)];
      var tanka := [Tanka(5, name, 3000.0)];
      DetailRow(list, tanka, list[0]) == Ok(KinmuRow(5, name, ym, c1, n1, 80.0, 180.0, 3600.0, 1600.0)) &&
      DetailRow(list, tanka, list[1]) == Ok(KinmuRow(5, name, ym, c2, n2, 100.0, 180.0, 3600.0, 2000.0))
  {
    var list := [Jisseki(5, name, ym, c1, n1, 80.0), Jisseki(5, name, ym, c2, n2, 100.0)];
    assert list[1..] == [list[1]] && list[1..][1..] == [];
    assert RecordsOf(list[1..], 5) == [list[1]] + [];
    assert RecordsOf(list, 5) == [list[0]] + [list[1]] == list;
    assert Hours(list[1..]) == 100.0;
  }
}
