/**
 * The project profitability sheet 顧客別ジョブ採算明細: the cost records of
 * the categories 売上 (sales) and 仕入 (purchases), grouped by department,
 * month, customer and contract, with the customer's code and either the
 * actual or the planned amounts depending on the cutover date.
 */
module ProjectProfit {
  import opened Wrappers
  import opened Records
  import opened Workbook
  import opened LookupTables

  const ProfitSheet: string := "顧客別ジョブ採算明細"
  const Uriage: string := "売上"
  const Shiire: string := "仕入"

  /** The Where filter: only sales and purchases are aggregated. */
  predicate IsAggregated(g: Genka)
  {
    g.bunrui == Uriage || g.bunrui == Shiire
  }

  function Filtered(list: seq<Genka>): (f: seq<Genka>)
    ensures |f| <= |list|
  {
    if list == [] then []
    else Filtered(list[..|list| - 1]) + (if IsAggregated(list[|list| - 1]) then [list[|list| - 1]] else [])
  }

  /** The GroupBy key: department, month, customer name and contract. */
  datatype GroupKey = GroupKey(busho: string, nengetsu: YearMonth, kyakusakiName: string, keiyaku: string)

  function KeyOf(g: Genka): GroupKey
  {
    GroupKey(g.busho, g.nengetsu, g.kyakusakiName, g.keiyaku)
  }

  /** The keys of the groups, each once, in the order of their first record (LINQ's GroupBy order). */
  function Keys(list: seq<Genka>): seq<GroupKey>
  {
    if list == [] then []
    else
      var rest := Keys(list[..|list| - 1]);
      var k := KeyOf(list[|list| - 1]);
      if k in rest then rest else rest + [k]
  }

  /** The records of one group, in order. */
  function InGroup(list: seq<Genka>, key: GroupKey): seq<Genka>
  {
    if list == [] then []
    else InGroup(list[..|list| - 1], key) + (if KeyOf(list[|list| - 1]) == key then [list[|list| - 1]] else [])
  }

  /** The four sums of a group. */
  datatype Measure = UriageYotei | UriageJisseki | ShiireYotei | ShiireJisseki

  /** A record's contribution to one sum: its amount when it has the sum's category, else 0. */
  function Amount(g: Genka, m: Measure): real
  {
    match m
    case UriageYotei => if g.bunrui == Uriage then g.yotei else 0.0
    case UriageJisseki => if g.bunrui == Uriage then g.jisseki else 0.0
    case ShiireYotei => if g.bunrui == Shiire then g.yotei else 0.0
    case ShiireJisseki => if g.bunrui == Shiire then g.jisseki else 0.0
  }

  function Total(list: seq<Genka>, m: Measure): real
  {
    if list == [] then 0.0 else Total(list[..|list| - 1], m) + Amount(list[|list| - 1], m)
  }

  function GroupSum(list: seq<Genka>, key: GroupKey, m: Measure): real
  {
    Total(InGroup(list, key), m)
  }

  /** One element of sumGenka. */
  datatype Summary = Summary(
    busho: string,
    nengetsu: YearMonth,
    kyakusakiName: string,
    keiyaku: string,
    uriageYotei: real,
    uriageJisseki: real,
    shiireYotei: real,
    shiireJisseki: real)

  function Summarize(list: seq<Genka>, key: GroupKey): Summary
  {
    Summary(key.busho, key.nengetsu, key.kyakusakiName, key.keiyaku,
            GroupSum(list, key, UriageYotei), GroupSum(list, key, UriageJisseki),
            GroupSum(list, key, ShiireYotei), GroupSum(list, key, ShiireJisseki))
  }

  function KeyOfSummary(s: Summary): GroupKey
  {
    GroupKey(s.busho, s.nengetsu, s.kyakusakiName, s.keiyaku)
  }

  function MeasureOf(s: Summary, m: Measure): real
  {
    match m
    case UriageYotei => s.uriageYotei
    case UriageJisseki => s.uriageJisseki
    case ShiireYotei => s.shiireYotei
    case ShiireJisseki => s.shiireJisseki
  }

  /** The summaries of the groups ks of list, in the order of ks. */
  function Summaries(list: seq<Genka>, ks: seq<GroupKey>): (s: seq<Summary>)
    ensures |s| == |ks|
  {
    if ks == [] then [] else Summaries(list, ks[..|ks| - 1]) + [Summarize(list, ks[|ks| - 1])]
  }

  /** sumGenka: one summary per group of the filtered records, in GroupBy order. */
  function SumGenka(list: seq<Genka>): seq<Summary>
  {
    var f := Filtered(list);
    Summaries(f, Keys(f))
  }

  // ---------------------------------------------------------------- cutover

  /**
   * new DateTime(year, month, jissekiHaneiDay) for a month: days 1 to 28
   * exist in every month of years 1 to 9999; day 31 does not exist in the
   * 30-day months, day 30 not in February, and February 29 only in leap
   * years; the exception names the rejected arguments.
   */
  function CutoverDate(ym: YearMonth, day: int): (r: Result<Date, Error>)
    ensures r.Ok? ==> r.value == Date(ym.year, ym.month, day)
    ensures r.Err? ==> r.error == InvalidDate(ym.year, ym.month, day)
    ensures 1 <= ym.year <= 9999 && 1 <= ym.month <= 12 && 1 <= day <= 28 ==> r.Ok?
    ensures !(1 <= ym.year <= 9999) || !(1 <= ym.month <= 12) || day < 1 || 31 < day ==> r.Err?
    ensures day == 31 && (ym.month == 4 || ym.month == 6 || ym.month == 9 || ym.month == 11) ==> r.Err?
    ensures day == 30 && ym.month == 2 ==> r.Err?
    ensures 1 <= ym.year <= 9999 && ym.month == 2 && day == 29 ==> (r.Ok? <==> IsLeapYear(ym.year))
  {
    var d := Date(ym.year, ym.month, day);
    if ValidDate(d) then Ok(d) else Err(InvalidDate(ym.year, ym.month, day))
  }

  /** Whether the actual amounts are shown: today is on or before the month's cutover date. */
  function UsesJisseki(today: Date, ym: YearMonth, day: int): Result<bool, Error>
  {
    match CutoverDate(ym, day)
    case Err(e) => Err(e)
    case Ok(d) => Ok(DateLe(today, d))
  }

  /** One output row: columns 1 to 7 of the profitability sheet. */
  datatype GenkaRow = GenkaRow(
    busho: string,
    nengetsu: YearMonth,
    kyakusakiCode: Option<string>,
    kyakusakiName: string,
    keiyaku: string,
    uriage: real,
    shiire: real)

  /** The row written for a summary, or the exception its cutover date raises. */
  function ProfitRow(s: Summary, kokyaku: seq<Kokyaku>, today: Date, day: int): Result<GenkaRow, Error>
  {
    var code := FindCode(kokyaku, s.kyakusakiName);
    match UsesJisseki(today, s.nengetsu, day)
    case Err(e) => Err(e)
    case Ok(actual) =>
      if actual then Ok(GenkaRow(s.busho, s.nengetsu, code, s.kyakusakiName, s.keiyaku, s.uriageJisseki, s.shiireJisseki))
      else Ok(GenkaRow(s.busho, s.nengetsu, code, s.kyakusakiName, s.keiyaku, s.uriageYotei, s.shiireYotei))
  }

  ghost predicate RowFor(s: Summary, kokyaku: seq<Kokyaku>, today: Date, day: int, row: GenkaRow)
  {
    ProfitRow(s, kokyaku, today, day) == Ok(row)
  }

  ghost predicate Writable(s: Summary, kokyaku: seq<Kokyaku>, today: Date, day: int)
  {
    ProfitRow(s, kokyaku, today, day).Ok?
  }

  ghost predicate FailsWith(s: Summary, kokyaku: seq<Kokyaku>, today: Date, day: int, e: Error)
  {
    ProfitRow(s, kokyaku, today, day) == Err(e)
  }

  /** rows is the profitability sheet of the summaries: one row per summary, in order. */
  ghost predicate IsProfit(sums: seq<Summary>, kokyaku: seq<Kokyaku>, today: Date, day: int, rows: seq<GenkaRow>)
  {
    |rows| == |sums| && forall i :: 0 <= i < |sums| ==> RowFor(sums[i], kokyaku, today, day, rows[i])
  }

  /** e is the exception of the first summary whose row cannot be written. */
  ghost predicate IsFirstFailure(sums: seq<Summary>, kokyaku: seq<Kokyaku>, today: Date, day: int, e: Error)
  {
    exists i :: 0 <= i < |sums| && FailsWith(sums[i], kokyaku, today, day, e) &&
      forall q :: 0 <= q < i ==> Writable(sums[q], kokyaku, today, day)
  }

  /**
   * WriteResultGenka: reads the customer table, checks the profitability
   * sheet, then writes one row per group. DateTime.Today is the parameter
   * today and the configured cutover day is day.
   */
  method WriteResultGenka(book: Book, genkaList: seq<Genka>, today: Date, day: int)
    returns (r: Result<seq<GenkaRow>, Error>)
    ensures KokyakuTable(book).Err? ==> r == Err(KokyakuTable(book).error)
    ensures KokyakuTable(book).Ok? && UsedRangeError(book, ProfitSheet).Some? ==>
      r == Err(UsedRangeError(book, ProfitSheet).value)
    ensures KokyakuTable(book).Ok? && UsedRangeError(book, ProfitSheet).None? ==>
      (r.Ok? ==> IsProfit(SumGenka(genkaList), KokyakuTable(book).value, today, day, r.value)) &&
      (r.Err? ==> IsFirstFailure(SumGenka(genkaList), KokyakuTable(book).value, today, day, r.error))
  {
    // the customer table
    var k := GetKokyaku(book);
    if k.Err? {
      return Err(k.error);
    }
    var kokyaku := k.value;
    var sheetError := UsedRangeError(book, ProfitSheet);
    if sheetError.Some? {
      return Err(sheetError.value);
    }
    // group the sales and purchase lines by their key
    var sumGenka := SumGenka(genkaList);
    var rows: seq<GenkaRow> := [];
    var i := 0;
    while i < |sumGenka|
      invariant 0 <= i <= |sumGenka| && |rows| == i
      invariant forall q :: 0 <= q < i ==> RowFor(sumGenka[q], kokyaku, today, day, rows[q])
    {
      var genka := sumGenka[i];
      var kyakusakiCode := FindCode(kokyaku, genka.kyakusakiName);
      var cutover := CutoverDate(genka.nengetsu, day);
      if cutover.Err? {
        assert FailsWith(genka, kokyaku, today, day, cutover.error);
        return Err(cutover.error);
      }
      var row;
      if DateLe(today, cutover.value) {
        row := GenkaRow(genka.busho, genka.nengetsu, kyakusakiCode, genka.kyakusakiName, genka.keiyaku,
                        genka.uriageJisseki, genka.shiireJisseki);
      } else {
        row := GenkaRow(genka.busho, genka.nengetsu, kyakusakiCode, genka.kyakusakiName, genka.keiyaku,
                        genka.uriageYotei, genka.shiireYotei);
      }
      assert RowFor(genka, kokyaku, today, day, row);
      rows := rows + [row];
      i := i + 1;
    }
    return Ok(rows);
  }

  // ---------------------------------------------------------------- grouping properties

  lemma {:induction false} FilteredSpec(list: seq<Genka>)
    ensures forall g :: g in Filtered(list) <==> g in list && IsAggregated(g)
  {
    if list != [] {
      var pre, x := list[..|list| - 1], list[|list| - 1];
      FilteredSpec(pre);
      assert list == pre + [x];
    }
  }

  /** The keys are distinct. */
  lemma {:induction false} KeysDistinct(list: seq<Genka>)
    ensures forall a, b :: 0 <= a < b < |Keys(list)| ==> Keys(list)[a] != Keys(list)[b]
  {
    if list != [] {
      KeysDistinct(list[..|list| - 1]);
    }
  }

  /** Every record's key is a key. */
  lemma {:induction false} KeyInKeys(list: seq<Genka>, i: int)
    requires 0 <= i < |list|
    ensures KeyOf(list[i]) in Keys(list)
  {
    var pre := list[..|list| - 1];
    if i < |pre| {
      KeyInKeys(pre, i);
      assert pre[i] == list[i];
    }
  }

  /** Every key is some record's key. */
  lemma {:induction false} KeyOfSomeRecord(list: seq<Genka>, k: GroupKey)
    requires k in Keys(list)
    ensures exists i :: 0 <= i < |list| && KeyOf(list[i]) == k
  {
    var pre := list[..|list| - 1];
    if k in Keys(pre) {
      KeyOfSomeRecord(pre, k);
      var i :| 0 <= i < |pre| && KeyOf(pre[i]) == k;
      assert KeyOf(list[i]) == k;
    } else {
      assert KeyOf(list[|list| - 1]) == k;
    }
  }

  /** A record with key a comes before every record with key b. */
  ghost predicate AppearsBefore(list: seq<Genka>, a: GroupKey, b: GroupKey)
  {
    exists i :: 0 <= i < |list| && KeyOf(list[i]) == a && NoneUpTo(list, b, i)
  }

  ghost predicate NoneUpTo(list: seq<Genka>, b: GroupKey, i: int)
  {
    forall j :: 0 <= j <= i && j < |list| ==> KeyOf(list[j]) != b
  }

  /**
   * GroupBy order: when group p comes before group q, a record of p comes
   * before every record of q.
   */
  lemma {:induction false} KeysFirstAppearance(list: seq<Genka>, p: int, q: int)
    requires 0 <= p < q < |Keys(list)|
    ensures AppearsBefore(list, Keys(list)[p], Keys(list)[q])
  {
    var pre, x := list[..|list| - 1], list[|list| - 1];
    var rest := Keys(pre);
    if q < |rest| {
      assert Keys(list)[p] == rest[p] && Keys(list)[q] == rest[q];
      KeysFirstAppearance(pre, p, q);
      var i :| 0 <= i < |pre| && KeyOf(pre[i]) == rest[p] && NoneUpTo(pre, rest[q], i);
      assert forall j :: 0 <= j <= i ==> list[j] == pre[j];
      assert KeyOf(list[i]) == rest[p] && NoneUpTo(list, rest[q], i);
    } else {
      assert Keys(list) == rest + [KeyOf(x)] && Keys(list)[q] == KeyOf(x) && KeyOf(x) !in rest;
      assert Keys(list)[p] == rest[p] && rest[p] in rest;
      KeyOfSomeRecord(pre, rest[p]);
      var i :| 0 <= i < |pre| && KeyOf(pre[i]) == rest[p];
      forall j | 0 <= j <= i
        ensures KeyOf(list[j]) != KeyOf(x)
      {
        assert list[j] == pre[j];
        KeyInKeys(pre, j);
      }
      assert KeyOf(list[i]) == Keys(list)[p] && NoneUpTo(list, KeyOf(x), i);
    }
  }

  lemma TotalSnoc(list: seq<Genka>, x: Genka, m: Measure)
    ensures Total(list + [x], m) == Total(list, m) + Amount(x, m)
  {
    assert (list + [x])[..|list|] == list;
  }

  lemma InGroupSnoc(list: seq<Genka>, x: Genka, key: GroupKey)
    ensures InGroup(list + [x], key) == InGroup(list, key) + (if KeyOf(x) == key then [x] else [])
  {
    assert (list + [x])[..|list|] == list;
  }

  lemma GroupSumSnoc(list: seq<Genka>, x: Genka, key: GroupKey, m: Measure)
    ensures GroupSum(list + [x], key, m) == GroupSum(list, key, m) + (if KeyOf(x) == key then Amount(x, m) else 0.0)
  {
    InGroupSnoc(list, x, key);
    if KeyOf(x) == key {
      TotalSnoc(InGroup(list, key), x, m);
    } else {
      assert InGroup(list, key) + [] == InGroup(list, key);
    }
  }

  /** A key that no record has names an empty group. */
  lemma {:induction false} InGroupOfAbsentKey(list: seq<Genka>, key: GroupKey)
    requires forall i :: 0 <= i < |list| ==> KeyOf(list[i]) != key
    ensures InGroup(list, key) == []
  {
    if list != [] {
      var pre := list[..|list| - 1];
      assert forall i :: 0 <= i < |pre| ==> pre[i] == list[i];
      InGroupOfAbsentKey(pre, key);
    }
  }

  /** The sum of one measure over the groups ks. */
  function SumOverKeys(list: seq<Genka>, ks: seq<GroupKey>, m: Measure): real
  {
    if ks == [] then 0.0 else SumOverKeys(list, ks[..|ks| - 1], m) + GroupSum(list, ks[|ks| - 1], m)
  }

  lemma {:induction false} SumOverKeysSnoc(list: seq<Genka>, x: Genka, ks: seq<GroupKey>, m: Measure)
    requires forall a, b :: 0 <= a < b < |ks| ==> ks[a] != ks[b]
    ensures SumOverKeys(list + [x], ks, m) ==
      SumOverKeys(list, ks, m) + (if KeyOf(x) in ks then Amount(x, m) else 0.0)
  {
    if ks != [] {
      var init, k := ks[..|ks| - 1], ks[|ks| - 1];
      assert ks == init + [k];
      assert forall a :: 0 <= a < |init| ==> init[a] == ks[a];
      SumOverKeysSnoc(list, x, init, m);
      GroupSumSnoc(list, x, k, m);
      if KeyOf(x) == k {
        assert k !in init;
      } else {
        assert (KeyOf(x) in ks) == (KeyOf(x) in init);
      }
    }
  }

  /** The groups partition the records: summed over all groups, a measure is its total. */
  lemma {:induction false} GroupsPartition(list: seq<Genka>, m: Measure)
    ensures SumOverKeys(list, Keys(list), m) == Total(list, m)
  {
    if list != [] {
      var pre, x := list[..|list| - 1], list[|list| - 1];
      assert list == pre + [x];
      GroupsPartition(pre, m);
      KeysDistinct(pre);
      var rest := Keys(pre);
      SumOverKeysSnoc(pre, x, rest, m);
      TotalSnoc(pre, x, m);
      if KeyOf(x) !in rest {
        var ks := rest + [KeyOf(x)];
        assert Keys(list) == ks && ks[..|ks| - 1] == rest;
        forall i | 0 <= i < |pre|
          ensures KeyOf(pre[i]) != KeyOf(x)
        {
          KeyInKeys(pre, i);
        }
        InGroupOfAbsentKey(pre, KeyOf(x));
        GroupSumSnoc(pre, x, KeyOf(x), m);
      }
    }
  }

  lemma FilteredSnoc(pre: seq<Genka>, x: Genka)
    ensures Filtered(pre + [x]) == Filtered(pre) + (if IsAggregated(x) then [x] else [])
  {
    assert (pre + [x])[..|pre|] == pre;
  }

  /** Records outside the two categories contribute nothing to any group's sums. */
  lemma {:induction false} FilterKeepsGroupSums(list: seq<Genka>, key: GroupKey, m: Measure)
    ensures GroupSum(Filtered(list), key, m) == GroupSum(list, key, m)
  {
    if list != [] {
      var pre, x := list[..|list| - 1], list[|list| - 1];
      assert list == pre + [x];
      FilterKeepsGroupSums(pre, key, m);
      GroupSumSnoc(pre, x, key, m);
      FilteredSnoc(pre, x);
      if IsAggregated(x) {
        GroupSumSnoc(Filtered(pre), x, key, m);
      } else {
        assert Filtered(list) == Filtered(pre) + [] == Filtered(pre);
        assert Amount(x, m) == 0.0;
      }
    }
  }

  /** Nor to the sums over all records. */
  lemma {:induction false} FilterKeepsTotals(list: seq<Genka>, m: Measure)
    ensures Total(Filtered(list), m) == Total(list, m)
  {
    if list != [] {
      var pre, x := list[..|list| - 1], list[|list| - 1];
      assert list == pre + [x];
      FilterKeepsTotals(pre, m);
      TotalSnoc(pre, x, m);
      FilteredSnoc(pre, x);
      if IsAggregated(x) {
        TotalSnoc(Filtered(pre), x, m);
      } else {
        assert Filtered(list) == Filtered(pre) + [] == Filtered(pre);
        assert Amount(x, m) == 0.0;
      }
    }
  }

  lemma {:induction false} SummariesAt(list: seq<Genka>, ks: seq<GroupKey>)
    ensures forall i :: 0 <= i < |ks| ==> Summaries(list, ks)[i] == Summarize(list, ks[i])
  {
    if ks != [] {
      SummariesAt(list, ks[..|ks| - 1]);
    }
  }

  /** The sum of one measure over a sequence of summaries. */
  function SummaryTotal(sums: seq<Summary>, m: Measure): real
  {
    if sums == [] then 0.0 else SummaryTotal(sums[..|sums| - 1], m) + MeasureOf(sums[|sums| - 1], m)
  }

  lemma {:induction false} SummaryTotalOfSummaries(list: seq<Genka>, ks: seq<GroupKey>, m: Measure)
    ensures SummaryTotal(Summaries(list, ks), m) == SumOverKeys(list, ks, m)
  {
    if ks != [] {
      var init := ks[..|ks| - 1];
      SummaryTotalOfSummaries(list, init, m);
      var s := Summaries(list, ks);
      assert s[..|s| - 1] == Summaries(list, init);
    }
  }

  lemma SumGenkaKeys(list: seq<Genka>)
    ensures |SumGenka(list)| == |Keys(Filtered(list))|
    ensures forall i :: 0 <= i < |SumGenka(list)| ==>
      SumGenka(list)[i] == Summarize(Filtered(list), Keys(Filtered(list))[i]) &&
      KeyOfSummary(SumGenka(list)[i]) == Keys(Filtered(list))[i]
  {
    SummariesAt(Filtered(list), Keys(Filtered(list)));
  }

  /** sumGenka has one summary per group: no two summaries share a key. */
  lemma SumGenkaDistinct(list: seq<Genka>)
    ensures forall a, b :: 0 <= a < b < |SumGenka(list)| ==>
      KeyOfSummary(SumGenka(list)[a]) != KeyOfSummary(SumGenka(list)[b])
  {
    SumGenkaKeys(list);
    KeysDistinct(Filtered(list));
  }

  /** Every summary is the group of some sales or purchase record. */
  lemma SumGenkaSound(list: seq<Genka>, i: int)
    requires 0 <= i < |SumGenka(list)|
    ensures exists g :: g in list && IsAggregated(g) && KeyOf(g) == KeyOfSummary(SumGenka(list)[i])
  {
    var f := Filtered(list);
    var ks := Keys(f);
    SumGenkaKeys(list);
    assert ks[i] in ks;
    KeyOfSomeRecord(f, ks[i]);
    var j :| 0 <= j < |f| && KeyOf(f[j]) == ks[i];
    assert f[j] in f;
    FilteredSpec(list);
  }

  /** Every sales or purchase record falls in some summary. */
  lemma SumGenkaComplete(list: seq<Genka>, g: Genka)
    requires g in list && IsAggregated(g)
    ensures exists i :: 0 <= i < |SumGenka(list)| && KeyOfSummary(SumGenka(list)[i]) == KeyOf(g)
  {
    var f := Filtered(list);
    var ks := Keys(f);
    FilteredSpec(list);
    assert g in f;
    var j :| 0 <= j < |f| && f[j] == g;
    KeyInKeys(f, j);
    var i :| 0 <= i < |ks| && ks[i] == KeyOf(g);
    SumGenkaKeys(list);
    assert KeyOfSummary(SumGenka(list)[i]) == KeyOf(g);
  }

  /** Each of a summary's four sums is the group's total of that category's amounts over all the records. */
  lemma SumGenkaSums(list: seq<Genka>, i: int, m: Measure)
    requires 0 <= i < |SumGenka(list)|
    ensures MeasureOf(SumGenka(list)[i], m) == GroupSum(list, KeyOfSummary(SumGenka(list)[i]), m)
  {
    SumGenkaKeys(list);
    FilterKeepsGroupSums(list, KeyOfSummary(SumGenka(list)[i]), m);
  }

  /** GroupBy order in sumGenka: a summary precedes another when its group's first record does. */
  lemma SumGenkaOrder(list: seq<Genka>, p: int, q: int)
    requires 0 <= p < q < |SumGenka(list)|
    ensures AppearsBefore(Filtered(list), KeyOfSummary(SumGenka(list)[p]), KeyOfSummary(SumGenka(list)[q]))
  {
    var f := Filtered(list);
    SummariesAt(f, Keys(f));
    KeysFirstAppearance(f, p, q);
    assert KeyOfSummary(SumGenka(list)[p]) == Keys(f)[p] && KeyOfSummary(SumGenka(list)[q]) == Keys(f)[q];
  }

  /** Nothing is lost or counted twice: over all summaries, each measure adds up to its total over all records. */
  lemma SumGenkaConserves(list: seq<Genka>, m: Measure)
    ensures SummaryTotal(SumGenka(list), m) == Total(list, m)
  {
    var f := Filtered(list);
    SummaryTotalOfSummaries(f, Keys(f), m);
    GroupsPartition(f, m);
    FilterKeepsTotals(list, m);
  }

  /**
   * A sale and a purchase line of one contract become one summary, and a
   * line of another category is dropped.
   */
  lemma SumGenkaExample(busho: string, ym: YearMonth, name: string, keiyaku: string)
    ensures var sale := Genka(ym, Uriage, busho, name, keiyaku, 100.0, 120.0);
      var purchase := Genka(ym, Shiire, busho, name, keiyaku, 30.0, 40.0);
      var other := Genka(ym, "経費", busho, name, keiyaku, 5.0, 6.0);
      SumGenka([sale, other, purchase]) == [Summary(busho, ym, name, keiyaku, 100.0, 120.0, 30.0, 40.0)]
  {
    var sale := Genka(ym, Uriage, busho, name, keiyaku, 100.0, 120.0);
    var purchase := Genka(ym, Shiire, busho, name, keiyaku, 30.0, 40.0);
    var other := Genka(ym, "経費", busho, name, keiyaku, 5.0, 6.0);
    var list := [sale, other, purchase];
    assert list[..2] == [sale, other] && [sale, other][..1] == [sale] && [sale][..0] == [];
    assert Filtered([sale]) == [sale];
    assert Filtered([sale, other]) == [sale];
    var f := Filtered(list);
    assert f == [sale, purchase];
    assert f[..1] == [sale];
    var k := KeyOf(sale);
    assert Keys([sale]) == [k];
    assert Keys(f) == [k];
    assert InGroup([sale], k) == [sale];
    assert InGroup(f, k) == f;
    forall m: Measure ensures Total(f, m) == Amount(sale, m) + Amount(purchase, m) {
      TotalSnoc([], sale, m);
      TotalSnoc([sale], purchase, m);
      assert [] + [sale] == [sale] && [sale] + [purchase] == f;
    }
    assert Summarize(f, k) == Summary(busho, ym, name, keiyaku, 100.0, 120.0, 30.0, 40.0);
    assert [k][..0] == [];
  }

  // ---------------------------------------------------------------- cutover properties

  /**
   * The cutover day itself still shows the actual amounts; every date after
   * it shows the planned ones (the next day, or the first of the next month
   * when the cutover is a month's last day).
   */
  lemma CutoverInclusive(ym: YearMonth, day: int)
    requires ValidDate(Date(ym.year, ym.month, day))
    ensures UsesJisseki(Date(ym.year, ym.month, day), ym, day) == Ok(true)
    ensures forall d: Date :: !DateLe(d, Date(ym.year, ym.month, day)) ==> UsesJisseki(d, ym, day) == Ok(false)
    ensures day < DaysInMonth(ym.year, ym.month) ==> UsesJisseki(Date(ym.year, ym.month, day + 1), ym, day) == Ok(false)
    ensures day == DaysInMonth(ym.year, ym.month) && ym.month < 12 ==>
      UsesJisseki(Date(ym.year, ym.month + 1, 1), ym, day) == Ok(false)
    ensures day == DaysInMonth(ym.year, ym.month) && ym.month == 12 ==>
      UsesJisseki(Date(ym.year + 1, 1, 1), ym, day) == Ok(false)
  {
  }

  /** Before the cutover date the actual amounts are shown, and after it the planned ones. */
  lemma CutoverMonotone(earlier: Date, later: Date, ym: YearMonth, day: int)
    requires DateLe(earlier, later)
    ensures UsesJisseki(later, ym, day) == Ok(true) ==> UsesJisseki(earlier, ym, day) == Ok(true)
    ensures UsesJisseki(earlier, ym, day) == Ok(false) ==> UsesJisseki(later, ym, day) == Ok(false)
  {
  }

  /** Cutover day 10 of May 2024, and days the month does not have. */
  lemma CutoverExamples()
    ensures UsesJisseki(Date(2024, 5, 9), YearMonth(2024, 5), 10) == Ok(true)
    ensures UsesJisseki(Date(2024, 5, 10), YearMonth(2024, 5), 10) == Ok(true)
    ensures UsesJisseki(Date(2024, 5, 11), YearMonth(2024, 5), 10) == Ok(false)
    ensures UsesJisseki(Date(2024, 5, 1), YearMonth(2024, 4), 31) == Err(InvalidDate(2024, 4, 31))
    ensures UsesJisseki(Date(2024, 3, 1), YearMonth(2024, 2), 29) == Ok(false)
    ensures UsesJisseki(Date(2023, 3, 1), YearMonth(2023, 2), 29) == Err(InvalidDate(2023, 2, 29))
  {
  }

  /**
   * What row i of the profitability sheet holds: summary i's key, the code
   * of the first customer of that name (or none), and the actual amounts
   * when today is on or before the month's cutover date, else the planned ones.
   */
  lemma ProfitRowFields(sums: seq<Summary>, kokyaku: seq<Kokyaku>, today: Date, day: int, rows: seq<GenkaRow>, i: int)
    requires IsProfit(sums, kokyaku, today, day, rows) && 0 <= i < |sums|
    ensures var s, row := sums[i], rows[i];
      row.busho == s.busho && row.nengetsu == s.nengetsu && row.kyakusakiName == s.kyakusakiName &&
      row.keiyaku == s.keiyaku && row.kyakusakiCode == FindCode(kokyaku, s.kyakusakiName)
    ensures ValidDate(Date(sums[i].nengetsu.year, sums[i].nengetsu.month, day))
    ensures var s, row, cut := sums[i], rows[i], Date(sums[i].nengetsu.year, sums[i].nengetsu.month, day);
      if DateLe(today, cut) then row.uriage == s.uriageJisseki && row.shiire == s.shiireJisseki
      else row.uriage == s.uriageYotei && row.shiire == s.shiireYotei
  {
    assert RowFor(sums[i], kokyaku, today, day, rows[i]);
  }

  /** Rows of one summary key agree on the customer code, whatever the key's other fields. */
  lemma SameCustomerSameCode(sums: seq<Summary>, kokyaku: seq<Kokyaku>, today: Date, day: int,
                             rows: seq<GenkaRow>, a: int, b: int)
    requires IsProfit(sums, kokyaku, today, day, rows) && 0 <= a < |sums| && 0 <= b < |sums|
    requires sums[a].kyakusakiName == sums[b].kyakusakiName
    ensures rows[a].kyakusakiCode == rows[b].kyakusakiCode
  {
    ProfitRowFields(sums, kokyaku, today, day, rows, a);
    ProfitRowFields(sums, kokyaku, today, day, rows, b);
  }
}
