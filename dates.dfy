/** Calendar dates as `datetime.date` holds them, and the `'%Y-%m-%d'` text form that
    `datetime.datetime.strptime` reads and `date.isoformat` writes. */
module Dates {
  import opened Results

  /** A date as (year, month, day); whether it is a real calendar date is ValidDate. */
  datatype Date = Date(year: int, month: int, day: int)

  /** `datetime.MINYEAR` and `datetime.MAXYEAR`. */
  const MinYear := 1
  const MaxYear := 9999

  predicate IsLeapYear(y: int) {
    y % 4 == 0 && (y % 100 != 0 || y % 400 == 0)
  }

  function DaysInMonth(y: int, m: int): (n: int)
    requires 1 <= m <= 12
    ensures 28 <= n <= 31
    ensures n == 29 <==> m == 2 && IsLeapYear(y)
  {
    if m == 2 then (if IsLeapYear(y) then 29 else 28)
    else if m == 4 || m == 6 || m == 9 || m == 11 then 30
    else 31
  }

  /** The dates `datetime.date` accepts: every other triple makes its constructor raise ValueError. */
  predicate ValidDate(d: Date) {
    MinYear <= d.year <= MaxYear && 1 <= d.month <= 12 && 1 <= d.day <= DaysInMonth(d.year, d.month)
  }

  /** `a < b` on dates: Python compares them as (year, month, day) tuples. */
  predicate Before(a: Date, b: Date) {
    a.year < b.year || (a.year == b.year && (a.month < b.month || (a.month == b.month && a.day < b.day)))
  }

  /** `a <= b` on dates. */
  predicate AtOrBefore(a: Date, b: Date) {
    Before(a, b) || a == b
  }

  /** The tuple order is a strict total order, so `since < d <= until` forces `since < until`. */
  lemma BeforeIsStrictTotalOrder(a: Date, b: Date, c: Date)
    ensures !Before(a, a)
    ensures Before(a, b) && Before(b, c) ==> Before(a, c)
    ensures Before(a, b) || a == b || Before(b, a)
  {
  }

  // ---- decimal digits -------------------------------------------------------

  predicate IsDigit(c: char) {
    '0' <= c <= '9'
  }

  predicate AllDigits(s: string) {
    forall i :: 0 <= i < |s| ==> IsDigit(s[i])
  }

  function DigitValue(c: char): (n: nat)
    requires IsDigit(c)
    ensures n < 10
  {
    c as int - '0' as int
  }

  function DigitChar(n: nat): (c: char)
    requires n < 10
    ensures IsDigit(c) && DigitValue(c) == n
  {
    ('0' as int + n) as char
  }

  function Pow10(w: nat): (p: nat)
    ensures p >= 1
  {
    if w == 0 then 1 else 10 * Pow10(w - 1)
  }

  /** The value of a run of decimal digits, most significant digit first. */
  function DecimalValue(s: string): (n: nat)
    requires AllDigits(s)
    ensures n < Pow10(|s|)
  {
    if s == [] then 0 else 10 * DecimalValue(s[..|s| - 1]) + DigitValue(s[|s| - 1])
  }

  /** n written in exactly w digits, zero-padded on the left (`%0wd`). */
  function PaddedDecimal(n: nat, w: nat): (s: string)
    ensures |s| == w && AllDigits(s)
  {
    if w == 0 then [] else PaddedDecimal(n / 10, w - 1) + [DigitChar(n % 10)]
  }

  lemma {:induction false} DecimalOfPadded(n: nat, w: nat)
    requires n < Pow10(w)
    ensures DecimalValue(PaddedDecimal(n, w)) == n
  {
    if w > 0 {
      var q, r := n / 10, n % 10;
      assert n == 10 * q + r;
      assert q < Pow10(w - 1);
      var s := PaddedDecimal(n, w);
      assert s == PaddedDecimal(q, w - 1) + [DigitChar(r)];
      assert s[..|s| - 1] == PaddedDecimal(q, w - 1) && s[|s| - 1] == DigitChar(r);
      DecimalOfPadded(q, w - 1);
    }
  }

  lemma {:induction false} PaddedOfDecimal(s: string)
    requires AllDigits(s)
    ensures PaddedDecimal(DecimalValue(s), |s|) == s
  {
    if s != [] {
      var init := s[..|s| - 1];
      var n := DecimalValue(s);
      assert AllDigits(init);
      assert n / 10 == DecimalValue(init) && n % 10 == DigitValue(s[|s| - 1]);
      PaddedOfDecimal(init);
      assert s == init + [s[|s| - 1]];
    }
  }

  // ---- the '%Y-%m-%d' form --------------------------------------------------

  /** `date.isoformat()`: four-digit year, two-digit month and day. */
  function FormatDate(d: Date): (s: string)
    requires ValidDate(d)
    ensures |s| == 10 && s[4] == '-' && s[7] == '-'
  {
    PaddedDecimal(d.year, 4) + "-" + PaddedDecimal(d.month, 2) + "-" + PaddedDecimal(d.day, 2)
  }

  /** `datetime.datetime.strptime(s, '%Y-%m-%d').date()`, with None where it raises ValueError. */
  function ParseDate(s: string): (r: Option<Date>)
    ensures r.Some? ==> ValidDate(r.value)
  {
    if |s| == 10 && s[4] == '-' && s[7] == '-'
       && AllDigits(s[..4]) && AllDigits(s[5..7]) && AllDigits(s[8..])
    then
      var d := Date(DecimalValue(s[..4]), DecimalValue(s[5..7]), DecimalValue(s[8..]));
      if ValidDate(d) then Some(d) else None
    else None
  }

  /** Parsing accepts exactly the formatted valid dates, and gives back the date formatted. */
  lemma ParseDateExactly(s: string, d: Date)
    ensures ParseDate(s) == Some(d) <==> ValidDate(d) && s == FormatDate(d)
  {
    if ParseDate(s) == Some(d) {
      assert AllDigits(s[..4]) && AllDigits(s[5..7]) && AllDigits(s[8..]);
      PaddedOfDecimal(s[..4]);
      PaddedOfDecimal(s[5..7]);
      PaddedOfDecimal(s[8..]);
      assert s == s[..4] + "-" + s[5..7] + "-" + s[8..];
    }
    if ValidDate(d) && s == FormatDate(d) {
      assert s[..4] == PaddedDecimal(d.year, 4);
      assert s[5..7] == PaddedDecimal(d.month, 2);
      assert s[8..] == PaddedDecimal(d.day, 2);
      assert Pow10(4) == 10000 && Pow10(2) == 100;
      DecimalOfPadded(d.year, 4);
      DecimalOfPadded(d.month, 2);
      DecimalOfPadded(d.day, 2);
    }
  }

  // ---- timestamps -----------------------------------------------------------

  /** Index of the first 'T' in s, or |s| when there is none. */
  function TimeSeparator(s: string): (k: nat)
    ensures k <= |s|
    ensures forall j :: 0 <= j < k ==> s[j] != 'T'
    ensures k < |s| ==> s[k] == 'T'
  {
    if s == [] || s[0] == 'T' then 0 else 1 + TimeSeparator(s[1..])
  }

  /** `s.split("T")[0]`: everything before the first 'T'. */
  function DatePart(s: string): (p: string)
    ensures p <= s && 'T' !in p
    ensures |p| < |s| ==> s[|p|] == 'T'
  {
    s[..TimeSeparator(s)]
  }

  /** The date a `lastUpdated` timestamp denotes, time of day dropped; None where strptime raises. */
  function ExtractDate(timestamp: string): (r: Option<Date>)
    ensures r.Some? ==> ValidDate(r.value)
    ensures 'T' !in timestamp ==> r == ParseDate(timestamp)
  {
    assert 'T' !in timestamp ==> TimeSeparator(timestamp) == |timestamp| && DatePart(timestamp) == timestamp;
    ParseDate(DatePart(timestamp))
  }

  /** Whatever follows the first 'T' is ignored. */
  lemma ExtractDateIgnoresTime(s: string, rest: string)
    requires 'T' !in s
    ensures ExtractDate(s + "T" + rest) == ExtractDate(s) == ParseDate(s)
  {
    var t := s + "T" + rest;
    assert forall j :: 0 <= j < |s| ==> t[j] == s[j] != 'T';
    assert t[|s|] == 'T';
    assert TimeSeparator(t) == |s|;
    assert DatePart(t) == s;
    assert TimeSeparator(s) == |s|;
    assert DatePart(s) == s;
  }

  /** The year 2019 is written, and read, as `"2019"`. */
  lemma Year2019Digits()
    ensures PaddedDecimal(2019, 4) == "2019" && DecimalValue("2019") == 2019
  {
    assert PaddedDecimal(2, 1) == "2";
    assert PaddedDecimal(20, 2) == "20";
    assert PaddedDecimal(201, 3) == "201";
    assert Pow10(4) == 10000;
    DecimalOfPadded(2019, 4);
  }

  /** `"2019-03-04"` is how 4 March 2019 is written. */
  lemma FormatDateExample()
    ensures FormatDate(Date(2019, 3, 4)) == "2019-03-04"
  {
    Year2019Digits();
    assert PaddedDecimal(3, 2) == "03" && PaddedDecimal(4, 2) == "04" by {
      assert PaddedDecimal(0, 1) == "0";
    }
  }

  /** `"2019-03-04"` reads as 4 March 2019. */
  lemma ParseDateExample()
    ensures ParseDate("2019-03-04") == Some(Date(2019, 3, 4))
  {
    FormatDateExample();
    ParseDateExactly("2019-03-04", Date(2019, 3, 4));
  }

  /** `"2019-03-04"` with any time of day after a 'T' (`"2019-03-04T12:00:00Z"`, say) denotes 4 March 2019. */
  lemma ExtractDateExample(time: string)
    ensures ExtractDate("2019-03-04" + "T" + time) == ExtractDate("2019-03-04") == Some(Date(2019, 3, 4))
  {
    ParseDateExample();
    assert 'T' !in "2019-03-04";
    ExtractDateIgnoresTime("2019-03-04", time);
  }

  /** 2019 is not a leap year, so its 29 February is refused. */
  lemma ExtractDateRejectsFebruary29()
    ensures ExtractDate("2019-02-29") == None
  {
    var s := "2019-02-29";
    Year2019Digits();
    assert s[..4] == "2019";
    assert s[5..7] == "02";
    assert s[8..] == "29";
    assert DecimalValue("02") == 2 && DecimalValue("29") == 29 by {
      assert "02"[..1] == "0" && "29"[..1] == "2";
    }
    assert ParseDate(s) == None;
    ExtractDateIgnoresTime(s, "");
  }
}
