/**
 * The second bot's quote conversion: a quote whose numbers arrive as text
 * becomes a `Price` whose numbers are floats. Required numbers that do not
 * parse become 0.0, optional ones become None, and a percentage may carry
 * trailing '%' signs.
 */
module PriceConversion {
  import opened Wrappers
  import opened Text
  import opened Dates

  /** An `f64` value: a finite value held exactly, an infinity, or NaN. */
  datatype Float = Finite(value: real) | Infinite(negative: bool) | NaN

  /** The quote as the client library delivers it, numbers still as text. */
  datatype SimpleQuote = SimpleQuote(
    symbol: string, name: string,
    price: string, change: string, percentChange: string,
    preMarketPrice: Option<string>, afterHoursPrice: Option<string>)

  datatype Price = Price(
    symbol: string, name: string,
    price: Float, change: Float, percentChange: Float,
    preMarketPrice: Option<Float>, afterHoursPrice: Option<Float>)

  // ------------------------------------------------- `str::parse::<f64>`

  function Pow10(n: nat): (r: nat)
    ensures r >= 1
  {
    if n == 0 then 1 else 10 * Pow10(n - 1)
  }

  /** The first position of an exponent marker, 'e' or 'E'. */
  function ExponentMarker(s: string): (r: Option<nat>)
    ensures r.Some? ==> r.value < |s| && (s[r.value] == 'e' || s[r.value] == 'E')
    ensures r.None? ==> forall i :: 0 <= i < |s| ==> s[i] != 'e' && s[i] != 'E'
  {
    if s == [] then None
    else if s[0] == 'e' || s[0] == 'E' then Some(0)
    else match ExponentMarker(s[1..])
      case None => None
      case Some(k) => Some(k + 1)
  }

  /** Digits before and after the point, at least one in all: the value they denote. */
  function MantissaValue(whole: string, frac: string): (r: Option<real>)
    ensures r.Some? ==> r.value >= 0.0
  {
    if |whole| + |frac| == 0 || !AllDigits(whole) || !AllDigits(frac) then None
    else Some(DigitsValue(whole) as real + DigitsValue(frac) as real / Pow10(|frac|) as real)
  }

  /** Digits, optionally split by one '.'. */
  function ParseMantissa(m: string): (r: Option<real>)
    ensures r.Some? ==> r.value >= 0.0
  {
    match IndexOf(m, '.')
    case None => MantissaValue(m, [])
    case Some(i) => MantissaValue(m[..i], m[i + 1..])
  }

  /** An optionally signed, non-empty run of digits. */
  function ParseExponent(e: string): Option<int> {
    var (negative, digits) := if |e| > 0 && (e[0] == '+' || e[0] == '-') then (e[0] == '-', e[1..]) else (false, e);
    if digits == [] || !AllDigits(digits) then None
    else Some(if negative then -(DigitsValue(digits) as int) else DigitsValue(digits))
  }

  function Scale(x: real, e: int): real {
    if e >= 0 then x * Pow10(e) as real else x / Pow10(-e) as real
  }

  /** An unsigned decimal: mantissa, then optionally 'e' or 'E' and an exponent. */
  function ParseDecimal(t: string): Option<real> {
    match ExponentMarker(t)
    case None => ParseMantissa(t)
    case Some(i) =>
      match (ParseMantissa(t[..i]), ParseExponent(t[i + 1..]))
      case (Some(m), Some(e)) => Some(Scale(m, e))
      case _ => None
  }

  /** A leading sign, if any, and the text after it. */
  function SplitSign(s: string): (bool, string) {
    if |s| > 0 && (s[0] == '+' || s[0] == '-') then (s[0] == '-', s[1..]) else (false, s)
  }

  /** `eq_ignore_ascii_case` against a lower-case word. */
  predicate MatchesWord(s: string, word: string) {
    |s| == |word| && forall i :: 0 <= i < |s| ==> LowerChar(s[i]) == word[i]
  }

  /** "inf", "infinity" and "nan", in any case. */
  function SpecialValue(rest: string, negative: bool): Option<Float> {
    if MatchesWord(rest, "inf") || MatchesWord(rest, "infinity") then Some(Infinite(negative))
    else if MatchesWord(rest, "nan") then Some(NaN)
    else None
  }

  /**
   * `s.parse::<f64>()`: an optional sign, then "inf", "infinity" or "nan" in
   * any case, or a decimal. Nothing else is accepted, not even spaces.
   */
  function ParseF64(s: string): (r: Option<Float>)
    ensures s == [] ==> r.None?
  {
    var (negative, rest) := SplitSign(s);
    match SpecialValue(rest, negative)
    case Some(f) => Some(f)
    case None =>
      match ParseDecimal(rest)
      case None => None
      case Some(x) => Some(Finite(if negative then -x else x))
  }

  lemma DigitsHaveNoMarks(s: string)
    requires AllDigits(s)
    ensures IndexOf(s, '.').None? && ExponentMarker(s).None?
  {
  }

  /** A run of digits is a decimal without fraction or exponent. */
  lemma DecimalOfDigits(s: string)
    requires s != [] && AllDigits(s)
    ensures ParseDecimal(s) == Some(DigitsValue(s) as real)
  {
    DigitsHaveNoMarks(s);
    assert MantissaValue(s, []) == Some(DigitsValue(s) as real);
  }

  /** A run of digits is none of the special words. */
  lemma DigitsAreNotSpecial(s: string, negative: bool)
    requires s != [] && AllDigits(s)
    ensures SpecialValue(s, negative) == None
  {
    assert IsDigit(s[0]) && LowerChar(s[0]) == s[0];
  }

  /** A whole number written in decimal parses to itself, with or without a sign. */
  lemma ParseF64Integer(n: nat)
    ensures ParseF64(NatToString(n)) == Some(Finite(n as real))
    ensures ParseF64("-" + NatToString(n)) == Some(Finite(-(n as real)))
  {
    var s := NatToString(n);
    DigitsValueOfNatToString(n);
    DecimalOfDigits(s);
    DigitsAreNotSpecial(s, false);
    DigitsAreNotSpecial(s, true);
    assert SplitSign(s) == (false, s) by {
      assert IsDigit(s[0]);
    }
    assert SplitSign("-" + s) == (true, s) by {
      assert ("-" + s)[1..] == s;
    }
  }

  /** Every character a float literal may contain. */
  predicate FloatChar(c: char) {
    IsDigit(c) || c in "+-.eEinftyaINFTYA"
  }

  lemma MantissaChars(m: string)
    requires ParseMantissa(m).Some?
    ensures forall i :: 0 <= i < |m| ==> FloatChar(m[i])
  {
    match IndexOf(m, '.')
    case None =>
      assert AllDigits(m);
    case Some(i) =>
      assert AllDigits(m[..i]) && AllDigits(m[i + 1..]);
      assert m == m[..i] + ['.'] + m[i + 1..];
      forall k | 0 <= k < |m|
        ensures FloatChar(m[k])
      {
        if k < i {
          assert m[k] == m[..i][k];
        } else if k > i {
          assert m[k] == m[i + 1..][k - i - 1];
        }
      }
  }

  lemma ExponentChars(e: string)
    requires ParseExponent(e).Some?
    ensures forall i :: 0 <= i < |e| ==> FloatChar(e[i])
  {
    if |e| > 0 && (e[0] == '+' || e[0] == '-') {
      forall k | 1 <= k < |e|
        ensures FloatChar(e[k])
      {
        assert e[k] == e[1..][k - 1];
      }
    }
  }

  lemma DecimalChars(t: string)
    requires ParseDecimal(t).Some?
    ensures forall i :: 0 <= i < |t| ==> FloatChar(t[i])
  {
    match ExponentMarker(t)
    case None => MantissaChars(t);
    case Some(i) =>
      MantissaChars(t[..i]);
      ExponentChars(t[i + 1..]);
      forall k | 0 <= k < |t|
        ensures FloatChar(t[k])
      {
        if k < i {
          assert t[k] == t[..i][k];
        } else if k > i {
          assert t[k] == t[i + 1..][k - i - 1];
        }
      }
  }

  lemma SpecialChars(rest: string, negative: bool)
    requires SpecialValue(rest, negative).Some?
    ensures forall i :: 0 <= i < |rest| ==> FloatChar(rest[i])
  {
    forall k | 0 <= k < |rest|
      ensures FloatChar(rest[k])
    {
      var c := LowerChar(rest[k]);
      assert c in "infinityan";
      if IsAsciiUpper(rest[k]) {
        assert c as int == rest[k] as int + 32;
      }
    }
  }

  /**
   * Whatever parses is made only of signs, digits, '.', exponent marks and
   * the letters of "infinity" and "nan"; in particular a '%' anywhere makes
   * the parse fail, which is why the percentage is trimmed first.
   */
  lemma ParsedTextIsFloatText(s: string)
    requires ParseF64(s).Some?
    ensures forall i :: 0 <= i < |s| ==> FloatChar(s[i])
    ensures '%' !in s
  {
    var (negative, rest) := SplitSign(s);
    if SpecialValue(rest, negative).Some? {
      SpecialChars(rest, negative);
    } else {
      DecimalChars(rest);
    }
    forall k | 0 <= k < |s|
      ensures FloatChar(s[k])
    {
      if |s| > 0 && (s[0] == '+' || s[0] == '-') && k > 0 {
        assert s[k] == rest[k - 1];
      }
    }
  }

  // ---------------------------------------------------- the conversion

  /** `trim_end_matches('%')`: drop every trailing '%' and nothing else. */
  function TrimEndPercent(s: string): (r: string)
    ensures r <= s
    ensures r == [] || r[|r| - 1] != '%'
    ensures forall i :: |r| <= i < |s| ==> s[i] == '%'
  {
    if s != [] && s[|s| - 1] == '%' then TrimEndPercent(s[..|s| - 1]) else s
  }

  /** Another trailing '%' changes nothing. */
  lemma TrimEndPercentAbsorbs(s: string)
    ensures TrimEndPercent(s + "%") == TrimEndPercent(s)
  {
    assert (s + "%")[..|s|] == s;
  }

  /** `Price::parse_f64`: an absent or unparsable optional value is None. */
  function ParseOptional(value: Option<string>): (r: Option<Float>)
    ensures r.Some? <==> value.Some? && ParseF64(value.value).Some?
    ensures r.Some? ==> r == ParseF64(value.value)
  {
    value.Bind(ParseF64)
  }

  /** A required value: the parsed float, or 0.0 when it does not parse. */
  function ParseOrZero(s: string): (r: Float)
    ensures ParseF64(s).None? ==> r == Finite(0.0)
    ensures ParseF64(s).Some? ==> r == ParseF64(s).value
  {
    ParseF64(s).GetOr(Finite(0.0))
  }

  /**
   * `From<SimpleQuote> for Price`. Total: every quote converts. Text fields
   * are copied; price and change default to 0.0; the percentage is read
   * after its trailing '%' signs are dropped, also defaulting to 0.0; pre-
   * and after-market prices are None when absent or unparsable.
   */
  function PriceFrom(q: SimpleQuote): (p: Price)
    ensures p.symbol == q.symbol && p.name == q.name
    ensures p.price == ParseOrZero(q.price) && p.change == ParseOrZero(q.change)
    ensures p.percentChange == ParseOrZero(TrimEndPercent(q.percentChange))
    ensures p.preMarketPrice == ParseOptional(q.preMarketPrice)
    ensures p.afterHoursPrice == ParseOptional(q.afterHoursPrice)
  {
    Price(
      q.symbol, q.name,
      ParseOrZero(q.price), ParseOrZero(q.change),
      ParseOrZero(TrimEndPercent(q.percentChange)),
      ParseOptional(q.preMarketPrice), ParseOptional(q.afterHoursPrice))
  }

  /** A text with a '%' anywhere does not parse as a float. */
  lemma PercentSpoilsParse(s: string)
    requires '%' in s
    ensures ParseF64(s) == None
  {
    if ParseF64(s).Some? {
      ParsedTextIsFloatText(s);
    }
  }

  /** A run of digits has nothing to trim. */
  lemma TrimDigits(s: string)
    requires s != [] && AllDigits(s)
    ensures TrimEndPercent(s) == s
  {
    assert IsDigit(s[|s| - 1]);
  }

  /**
   * A percentage written as a whole number followed by '%' is read as that
   * number, although the text with its '%' would not parse at all.
   */
  lemma PercentReadsNumber(q: SimpleQuote, n: nat)
    requires q.percentChange == NatToString(n) + "%"
    ensures ParseF64(q.percentChange) == None
    ensures PriceFrom(q).percentChange == Finite(n as real)
  {
    assert q.percentChange[|q.percentChange| - 1] == '%';
    PercentSpoilsParse(q.percentChange);
    TrimEndPercentAbsorbs(NatToString(n));
    TrimDigits(NatToString(n));
    ParseF64Integer(n);
  }

  /** Extra trailing '%' signs never change the converted percentage. */
  lemma PercentSignsIgnored(q: SimpleQuote)
    ensures PriceFrom(q.(percentChange := q.percentChange + "%")) == PriceFrom(q)
  {
    TrimEndPercentAbsorbs(q.percentChange);
  }
}
