/**
 * The month sheets of a cost workbook are named "7月" … "6月", in
 * half-width or in full-width digits ("７月", "１０月").
 */
module SheetNames {
  import opened Wrappers
  import opened Records
  import opened Workbook

  function DigitChar(d: nat): char
    requires d < 10
  {
    ('0' as int + d) as char
  }

  /** The decimal notation of n, most significant digit first. */
  function Digits(n: nat): string
  {
    if n < 10 then [DigitChar(n)] else Digits(n / 10) + [DigitChar(n % 10)]
  }

  /** A half-width digit becomes its full-width form (U+FF10 … U+FF19); other characters stay. */
  function FullWidthChar(c: char): char
  {
    if '0' <= c <= '9' then (c as int - '0' as int + 0xFF10) as char else c
  }

  function FullWidth(s: string): (r: string)
    ensures |r| == |s|
    ensures forall i :: 0 <= i < |s| ==> r[i] == FullWidthChar(s[i])
  {
    if s == [] then [] else [FullWidthChar(s[0])] + FullWidth(s[1..])
  }

  /** The half-width name of the sheet of fiscal month tsuki: its digits followed by 月. */
  function HalfWidthName(tsuki: nat): string
  {
    Digits(tsuki) + "月"
  }

  /**
   * The switch of GetTsukiSheetName: the pair (half-width name, full-width
   * name) for months 1 to 12, and NotImplementedException otherwise.
   */
  function GetTsukiSheetName(tsuki: int): (r: Result<(string, string), Error>)
    ensures r.Ok? <==> 1 <= tsuki <= 12
    ensures r.Ok? ==> r.value.0 == HalfWidthName(tsuki)
    ensures r.Err? ==> r.error == MonthOutOfRange(tsuki)
  {
    match tsuki
    case 7 => Ok(("7月", "７月"))
    case 8 => Ok(("8月", "８月"))
    case 9 => Ok(("9月", "９月"))
    case 10 => Ok(("10月", "１０月"))
    case 11 => Ok(("11月", "１１月"))
    case 12 => Ok(("12月", "１２月"))
    case 1 => Ok(("1月", "１月"))
    case 2 => Ok(("2月", "２月"))
    case 3 => Ok(("3月", "３月"))
    case 4 => Ok(("4月", "４月"))
    case 5 => Ok(("5月", "５月"))
    case 6 => Ok(("6月", "６月"))
    case _ => Err(MonthOutOfRange(tsuki))
  }

  /** The second name of each pair is the first written in full-width digits. */
  lemma FullWidthSheetName(tsuki: int)
    requires 1 <= tsuki <= 12
    ensures GetTsukiSheetName(tsuki).value.1 == FullWidth(HalfWidthName(tsuki))
  {
  }

  /**
   * The name of the sheet GetGenkahyo reads for month tsuki: the half-width
   * name is looked up first and the full-width name only when it is absent;
   * with neither, the null sheet is dereferenced.
   */
  function MonthSheetName(book: Book, tsuki: int): (r: Result<string, Error>)
    ensures r.Ok? ==> r.value in book
    ensures !(1 <= tsuki <= 12) ==> r == Err(MonthOutOfRange(tsuki))
    ensures 1 <= tsuki <= 12 && HalfWidthName(tsuki) in book ==> r == Ok(HalfWidthName(tsuki))
    ensures 1 <= tsuki <= 12 && HalfWidthName(tsuki) !in book && FullWidth(HalfWidthName(tsuki)) in book ==>
      r == Ok(FullWidth(HalfWidthName(tsuki)))
    ensures 1 <= tsuki <= 12 && HalfWidthName(tsuki) !in book && FullWidth(HalfWidthName(tsuki)) !in book ==>
      r == Err(MissingSheet(FullWidth(HalfWidthName(tsuki))))
  {
    match GetTsukiSheetName(tsuki)
    case Err(e) => Err(e)
    case Ok((hankaku, zenkaku)) =>
      FullWidthSheetName(tsuki);
      if hankaku in book then Ok(hankaku)
      else if zenkaku in book then Ok(zenkaku)
      else Err(MissingSheet(zenkaku))
  }

  /** The two spellings of a month never coincide, so the fallback is a different sheet. */
  lemma HalfAndFullWidthDiffer(tsuki: int)
    requires 1 <= tsuki <= 12
    ensures HalfWidthName(tsuki) != FullWidth(HalfWidthName(tsuki))
  {
    var h := HalfWidthName(tsuki);
    assert '0' <= h[0] <= '9';
    assert FullWidth(h)[0] == FullWidthChar(h[0]) != h[0];
  }

  /** A month name is one digit and 月 below 10, and "1", a digit and 月 from 10. */
  lemma HalfWidthNameShape(t: int)
    requires 1 <= t <= 12
    ensures t < 10 ==> |HalfWidthName(t)| == 2 && HalfWidthName(t)[0] == DigitChar(t)
    ensures 10 <= t ==> |HalfWidthName(t)| == 3 && HalfWidthName(t)[0] == '1' && HalfWidthName(t)[1] == DigitChar(t - 10)
  {
    if 10 <= t {
      assert Digits(t) == Digits(1) + [DigitChar(t - 10)];
    }
  }

  /** Different months name different sheets, in either spelling. */
  lemma SheetNamesDistinct(a: int, b: int)
    requires 1 <= a <= 12 && 1 <= b <= 12 && a != b
    ensures HalfWidthName(a) != HalfWidthName(b)
    ensures FullWidth(HalfWidthName(a)) != FullWidth(HalfWidthName(b))
    ensures HalfWidthName(a) != FullWidth(HalfWidthName(b))
  {
    HalfWidthNameShape(a);
    HalfWidthNameShape(b);
    var ha, hb := HalfWidthName(a), HalfWidthName(b);
    var fa, fb := FullWidth(ha), FullWidth(hb);
    assert fb[0] == FullWidthChar(hb[0]) && ha[0] != fb[0];
    if |ha| == |hb| {
      var k := if a < 10 then 0 else 1;
      assert ha[k] != hb[k];
      assert fa[k] == FullWidthChar(ha[k]) && fb[k] == FullWidthChar(hb[k]);
    }
  }
}
