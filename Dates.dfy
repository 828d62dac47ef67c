/**
 * chrono's `NaiveDate`, its `%Y-%m-%d` and `%m/%d` renderings, and its
 * `%Y-%m-%d` parser for unsigned years.
 */
module Dates {
  import opened Wrappers
  import opened Text

  datatype Date = Date(year: int, month: int, day: int)

  predicate IsLeapYear(y: int) {
    y % 4 == 0 && (y % 100 != 0 || y % 400 == 0)
  }

  function DaysInMonth(y: int, m: int): int
    requires 1 <= m <= 12
  {
    if m == 2 then (if IsLeapYear(y) then 29 else 28)
    else if m == 4 || m == 6 || m == 9 || m == 11 then 30
    else 31
  }

  predicate IsCalendarDate(d: Date) {
    1 <= d.month <= 12 && 1 <= d.day <= DaysInMonth(d.year, d.month)
  }

  /** A date that exists in the proleptic Gregorian calendar. */
  type NaiveDate = d: Date | IsCalendarDate(d) witness Date(1970, 1, 1)

  /** Calendar order: by year, then month, then day. */
  predicate NotAfter(a: NaiveDate, b: NaiveDate) {
    a.year < b.year || (a.year == b.year && (a.month < b.month || (a.month == b.month && a.day <= b.day)))
  }

  /** chrono's `%Y`: four digits for years 0 to 9999, a sign and the digits otherwise. */
  function YearText(y: int): string {
    if 0 <= y < 10000 then Pad4(y)
    else if y >= 10000 then "+" + NatToString(y)
    else if -y < 10000 then "-" + Pad4(-y)
    else "-" + NatToString(-y)
  }

  /** `date.format("%Y-%m-%d")`. */
  function IsoDate(d: NaiveDate): string {
    YearText(d.year) + "-" + Pad2(d.month) + "-" + Pad2(d.day)
  }

  /** `date.format("%m/%d")`. */
  function MonthDay(d: NaiveDate): string {
    Pad2(d.month) + "/" + Pad2(d.day)
  }

  /** The first position of `c` in `s`. */
  function IndexOf(s: string, c: char): (r: Option<nat>)
    ensures r.Some? ==> r.value < |s| && s[r.value] == c && forall j :: 0 <= j < r.value ==> s[j] != c
    ensures r.None? ==> forall j :: 0 <= j < |s| ==> s[j] != c
  {
    if s == [] then None
    else if s[0] == c then Some(0)
    else match IndexOf(s[1..], c)
      case None => None
      case Some(k) => Some(k + 1)
  }

  /** How many ASCII digits `s` starts with, at most `max`: what chrono's `scan::number` consumes. */
  function DigitRun(s: string, max: nat): (k: nat)
    ensures k <= max && k <= |s| && AllDigits(s[..k])
    ensures k == max || k == |s| || !IsDigit(s[k])
  {
    if max == 0 || s == [] || !IsDigit(s[0]) then 0
    else
      var k := 1 + DigitRun(s[1..], max - 1);
      assert s[..k] == [s[0]] + s[1..][..k - 1];
      k
  }

  /**
   * One unsigned numeric field of a chrono format string: leading whitespace
   * is skipped (`trim_start`), then one to `width` digits are read greedily.
   * The value and the rest of the input, or None when no digit comes first.
   */
  function Field(s: string, width: nat): Option<(nat, string)> {
    var t := TrimStart(s);
    var k := DigitRun(t, width);
    if k == 0 then None else Some((DigitsValue(t[..k]), t[k..]))
  }

  /** A literal `-` of the format: it must come next, with nothing skipped. */
  function Dash(s: string): Option<string> {
    if s != [] && s[0] == '-' then Some(s[1..]) else None
  }

  /**
   * `NaiveDate::parse_from_str(s, "%Y-%m-%d").ok()` for unsigned years: a
   * year of one to four digits, a `-`, a month of one or two digits, a `-`,
   * a day of one or two digits, each number possibly preceded by whitespace,
   * nothing after the day, and a real calendar date.
   */
  function ParseIsoDate(s: string): Option<NaiveDate> {
    match Field(s, 4)
    case None => None
    case Some((y, rest)) => ParseAfterYear(y, rest)
  }

  /** `-%m` and what follows, once the year is read. */
  function ParseAfterYear(y: nat, s: string): Option<NaiveDate> {
    match Dash(s)
    case None => None
    case Some(t) =>
      match Field(t, 2)
      case None => None
      case Some((m, rest)) => ParseAfterMonth(y, m, rest)
  }

  /** `-%d`, the end of the input, and the calendar check, once year and month are read. */
  function ParseAfterMonth(y: nat, m: nat, s: string): Option<NaiveDate> {
    match Dash(s)
    case None => None
    case Some(t) =>
      match Field(t, 2)
      case None => None
      case Some((d, rest)) =>
        var date := Date(y, m, d);
        if rest == [] && IsCalendarDate(date) then Some(date) else None
  }

  /** Whitespace before a field is skipped. */
  lemma FieldSkipsWhitespace(w: string, t: string, width: nat)
    requires AllWhitespace(w)
    ensures Field(w + t, width) == Field(t, width)
  {
    TrimStartSkips(w, t);
  }

  /** Digits throughout the first `n` characters: the scan takes all `n`. */
  lemma {:induction false} DigitRunDigits(s: string, n: nat)
    requires n <= |s| && AllDigits(s[..n])
    ensures DigitRun(s, n) == n
  {
    if n > 0 {
      assert s[0] == s[..n][0];
      assert s[1..][..n - 1] == s[..n][1..];
      DigitRunDigits(s[1..], n - 1);
    }
  }

  /** A field of exactly `width` digits, after any whitespace, is read whole and what follows is left. */
  lemma FieldReadsDigits(w: string, p: string, rest: string)
    requires AllWhitespace(w) && |p| > 0 && AllDigits(p)
    ensures Field(w + (p + rest), |p|) == Some((DigitsValue(p), rest))
  {
    FieldSkipsWhitespace(w, p + rest, |p|);
    var s := p + rest;
    assert s[..|p|] == p && s[|p|..] == rest;
    assert !IsWhitespace(s[0]) by {
      assert s[0] == p[0] && IsDigit(p[0]);
    }
    assert TrimStart(s) == s;
    DigitRunDigits(s, |p|);
  }

  /** The text of a date with whitespace before its numbers, grouped from the right. */
  lemma SpacedText(y: string, m: string, dd: string, w0: string, w1: string, w2: string)
    ensures w0 + y + "-" + w1 + m + "-" + w2 + dd == w0 + (y + ("-" + (w1 + (m + ("-" + (w2 + dd))))))
  {
  }

  lemma ParseYear(s: string, y: nat, t: string)
    requires Field(s, 4) == Some((y, t))
    ensures ParseIsoDate(s) == ParseAfterYear(y, t)
  {
  }

  lemma ParseMonth(y: nat, t: string, m: nat, u: string)
    requires Field(t, 2) == Some((m, u))
    ensures ParseAfterYear(y, "-" + t) == ParseAfterMonth(y, m, u)
  {
    assert Dash("-" + t) == Some(t);
  }

  lemma ParseDay(y: nat, m: nat, d: nat, t: string)
    requires Field(t, 2) == Some((d, [])) && IsCalendarDate(Date(y, m, d))
    ensures ParseAfterMonth(y, m, "-" + t) == Some(Date(y, m, d))
  {
    assert Dash("-" + t) == Some(t);
  }

  /**
   * Every date of years 0 to 9999 that `IsoDate` renders parses back, also
   * with whitespace in front of any of its three numbers.
   */
  lemma ParseIsoDateSpaced(d: NaiveDate, w0: string, w1: string, w2: string)
    requires 0 <= d.year < 10000
    requires AllWhitespace(w0) && AllWhitespace(w1) && AllWhitespace(w2)
    ensures ParseIsoDate(w0 + Pad4(d.year) + "-" + w1 + Pad2(d.month) + "-" + w2 + Pad2(d.day)) == Some(d)
  {
    var y, m, dd := Pad4(d.year), Pad2(d.month), Pad2(d.day);
    var tail2 := w2 + dd;
    var tail1 := w1 + (m + ("-" + tail2));
    FieldReadsDigits(w0, y, "-" + tail1);
    FieldReadsDigits(w1, m, "-" + tail2);
    FieldReadsDigits(w2, dd, []);
    assert dd + [] == dd;
    ParseYear(w0 + (y + ("-" + tail1)), d.year, "-" + tail1);
    ParseMonth(d.year, tail1, d.month, "-" + tail2);
    ParseDay(d.year, d.month, d.day, tail2);
    assert Date(d.year, d.month, d.day) == d;
    SpacedText(y, m, dd, w0, w1, w2);
  }

  /** Parsing gives back every date of years 0 to 9999 that `IsoDate` renders. */
  lemma ParseIsoDateRoundTrip(d: NaiveDate)
    requires 0 <= d.year < 10000
    ensures ParseIsoDate(IsoDate(d)) == Some(d)
  {
    ParseIsoDateSpaced(d, [], [], []);
    IsoDateUnspaced(d);
  }

  lemma IsoDateUnspaced(d: NaiveDate)
    requires 0 <= d.year < 10000
    ensures [] + Pad4(d.year) + "-" + [] + Pad2(d.month) + "-" + [] + Pad2(d.day) == IsoDate(d)
  {
    var y, m, dd := Pad4(d.year), Pad2(d.month), Pad2(d.day);
    assert IsoDate(d) == y + "-" + m + "-" + dd;
    assert [] + y == y;
    assert y + "-" + [] == y + "-";
    assert y + "-" + m + "-" + [] == y + "-" + m + "-";
  }
}
