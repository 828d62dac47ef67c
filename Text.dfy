/**
 * String helpers shared by the model. Dafny strings are sequences of Unicode
 * scalar values; Rust strings are UTF-8 bytes, so byte lengths and byte-indexed
 * slicing are modelled through the UTF-8 width of each character.
 */
module Text {
  import opened Wrappers

  predicate IsAsciiLower(c: char) { 'a' <= c <= 'z' }
  predicate IsAsciiUpper(c: char) { 'A' <= c <= 'Z' }
  predicate IsDigit(c: char) { '0' <= c <= '9' }
  predicate AllDigits(s: string) { forall i :: 0 <= i < |s| ==> IsDigit(s[i]) }

  /** Rust's `char::is_whitespace`: the Unicode White_Space property. */
  predicate IsWhitespace(c: char) {
    || ('\t' <= c <= '\r') || c == ' ' || c == '\U{85}' || c == '\U{A0}' || c == '\U{1680}'
    || ('\U{2000}' <= c <= '\U{200A}') || c == '\U{2028}' || c == '\U{2029}' || c == '\U{202F}'
    || c == '\U{205F}' || c == '\U{3000}'
  }

  predicate IsAscii(s: string) { forall i :: 0 <= i < |s| ==> s[i] < '\U{80}' }

  predicate AllWhitespace(s: string) { forall i :: 0 <= i < |s| ==> IsWhitespace(s[i]) }

  /** `str::trim_start`: the suffix left once the leading whitespace is dropped. */
  function TrimStart(s: string): (r: string)
    ensures |r| <= |s| && r == s[|s| - |r|..]
    ensures AllWhitespace(s[..|s| - |r|])
    ensures r == [] || !IsWhitespace(r[0])
  {
    if s != [] && IsWhitespace(s[0]) then TrimStart(s[1..]) else s
  }

  /** Whitespace in front changes nothing once trimmed. */
  lemma {:induction false} TrimStartSkips(w: string, t: string)
    requires AllWhitespace(w)
    ensures TrimStart(w + t) == TrimStart(t)
  {
    if w == [] {
      assert w + t == t;
    } else {
      assert (w + t)[1..] == w[1..] + t;
      TrimStartSkips(w[1..], t);
    }
  }

  function UpperChar(c: char): char {
    if IsAsciiLower(c) then (c as int - 32) as char else c
  }

  function LowerChar(c: char): char {
    if IsAsciiUpper(c) then (c as int + 32) as char else c
  }

  /** `str::to_uppercase` on ASCII letters: every lower-case letter is raised, nothing else moves. */
  function ToUpper(s: string): (r: string)
    ensures |r| == |s|
    ensures forall i :: 0 <= i < |r| ==> !IsAsciiLower(r[i])
    ensures forall i :: 0 <= i < |s| && !IsAsciiLower(s[i]) ==> r[i] == s[i]
    ensures forall i :: 0 <= i < |s| && IsAsciiLower(s[i]) ==> r[i] as int == s[i] as int - 32
  {
    seq(|s|, i requires 0 <= i < |s| => UpperChar(s[i]))
  }

  /** `str::to_lowercase` on ASCII letters: every upper-case letter is lowered, nothing else moves. */
  function ToLower(s: string): (r: string)
    ensures |r| == |s|
    ensures forall i :: 0 <= i < |r| ==> !IsAsciiUpper(r[i])
    ensures forall i :: 0 <= i < |s| && !IsAsciiUpper(s[i]) ==> r[i] == s[i]
    ensures forall i :: 0 <= i < |s| && IsAsciiUpper(s[i]) ==> r[i] as int == s[i] as int + 32
  {
    seq(|s|, i requires 0 <= i < |s| => LowerChar(s[i]))
  }

  predicate OccursAt(s: string, sub: string, i: int) {
    0 <= i && i + |sub| <= |s| && s[i..i + |sub|] == sub
  }

  /** `str::contains` for a string pattern. */
  predicate Contains(s: string, sub: string) {
    exists i | 0 <= i <= |s| - |sub| :: OccursAt(s, sub, i)
  }

  /** One differing character rules out an occurrence. */
  lemma MismatchRulesOut(s: string, sub: string, i: int, k: nat)
    requires 0 <= i && k < |sub| && i + k < |s| && s[i + k] != sub[k]
    ensures !OccursAt(s, sub, i)
  {
    if i + |sub| <= |s| {
      assert s[i..i + |sub|][k] == s[i + k];
    }
  }

  /** Number of occurrences of one character (`str::matches(c).count()` for a one-character pattern). */
  function CountChar(s: string, c: char): (n: nat)
    ensures n <= |s|
    ensures n == 0 <==> forall i :: 0 <= i < |s| ==> s[i] != c
  {
    if s == [] then 0 else (if s[0] == c then 1 else 0) + CountChar(s[1..], c)
  }

  function DigitChar(d: nat): char
    requires d < 10
  {
    ('0' as int + d) as char
  }

  /** Rust's `{}` rendering of an unsigned integer: decimal, no sign, no padding. */
  function NatToString(n: nat): (r: string)
    ensures |r| > 0 && AllDigits(r)
    ensures |r| > 1 ==> r[0] != '0'
  {
    if n < 10 then [DigitChar(n)] else NatToString(n / 10) + [DigitChar(n % 10)]
  }

  /** The number a non-empty run of decimal digits denotes. */
  function DigitsValue(s: string): nat
    requires AllDigits(s)
  {
    if s == [] then 0 else 10 * DigitsValue(s[..|s| - 1]) + (s[|s| - 1] as int - '0' as int)
  }

  lemma DigitsValueSnoc(s: string, c: char)
    requires AllDigits(s) && IsDigit(c)
    ensures AllDigits(s + [c]) && DigitsValue(s + [c]) == 10 * DigitsValue(s) + (c as int - '0' as int)
  {
    assert (s + [c])[..|s|] == s;
  }

  lemma {:induction false} DigitsValueOfNatToString(n: nat)
    ensures DigitsValue(NatToString(n)) == n
  {
    if n >= 10 {
      DigitsValueOfNatToString(n / 10);
      var s := NatToString(n);
      assert s[..|s| - 1] == NatToString(n / 10);
    }
  }

  /** Zero-padded two-digit rendering, as chrono's `%m` and `%d`. */
  function Pad2(n: nat): (r: string)
    requires n < 100
    ensures |r| == 2 && AllDigits(r) && DigitsValue(r) == n
  {
    var r := [DigitChar(n / 10), DigitChar(n % 10)];
    DigitsValueSnoc([], DigitChar(n / 10));
    DigitsValueSnoc([DigitChar(n / 10)], DigitChar(n % 10));
    r
  }

  /** Zero-padded four-digit rendering, as chrono's `%Y` for years 0 to 9999. */
  function Pad4(n: nat): (r: string)
    requires n < 10000
    ensures |r| == 4 && AllDigits(r) && DigitsValue(r) == n
  {
    var hi, lo := Pad2(n / 100), Pad2(n % 100);
    DigitsValueSnoc(hi, lo[0]);
    DigitsValueSnoc(hi + [lo[0]], lo[1]);
    DigitsValueSnoc([], lo[0]);
    DigitsValueSnoc([lo[0]], lo[1]);
    assert [lo[0]] + [lo[1]] == lo && hi + [lo[0]] + [lo[1]] == hi + lo;
    hi + lo
  }

  /** The number of bytes the UTF-8 encoding of one character takes. */
  function Utf8Width(c: char): (w: nat)
    ensures 1 <= w <= 4
  {
    if c as int < 0x80 then 1
    else if c as int < 0x800 then 2
    else if c as int < 0x10000 then 3
    else 4
  }

  /** `str::len`: the length of the UTF-8 encoding. */
  function ByteLen(s: string): nat {
    if s == [] then 0 else Utf8Width(s[0]) + ByteLen(s[1..])
  }

  lemma {:induction false} ByteLenAppend(a: string, b: string)
    ensures ByteLen(a + b) == ByteLen(a) + ByteLen(b)
  {
    if a != [] {
      assert (a + b)[1..] == a[1..] + b;
      ByteLenAppend(a[1..], b);
    } else {
      assert a + b == b;
    }
  }

  /** An ASCII string takes one byte per character. */
  lemma {:induction false} ByteLenAscii(s: string)
    requires IsAscii(s)
    ensures ByteLen(s) == |s|
  {
    if s != [] {
      ByteLenAscii(s[1..]);
    }
  }

  lemma OneCharBytes(c: char)
    ensures ByteLen([c]) == Utf8Width(c)
  {
    assert [c][1..] == [];
  }

  lemma {:induction false} ByteLenAtLeastLength(s: string)
    ensures |s| <= ByteLen(s) <= 4 * |s|
  {
    if s != [] {
      ByteLenAtLeastLength(s[1..]);
    }
  }

  /**
   * Rust's `&s[..n]`: the prefix that is exactly `n` bytes long, or None when
   * `n` is past the end or falls inside a character (where Rust panics).
   */
  function BytePrefix(s: string, n: nat): (r: Option<string>)
    ensures r.Some? ==> r.value <= s && ByteLen(r.value) == n
    ensures n <= ByteLen(s) && r.None? ==> exists k :: 0 <= k < |s| && ByteLen(s[..k]) < n < ByteLen(s[..k + 1])
  {
    if n == 0 then Some([])
    else if s == [] || Utf8Width(s[0]) > n then
      (if s != [] then
         assert s[..1] == [s[0]] && s[..0] == [] && s[..1][1..] == [];
         None
       else None)
    else
      match BytePrefix(s[1..], n - Utf8Width(s[0]))
      case None =>
        (if n <= ByteLen(s) then
           var k :| 0 <= k < |s[1..]| && ByteLen(s[1..][..k]) < n - Utf8Width(s[0]) < ByteLen(s[1..][..k + 1]);
           assert s[..k + 1] == [s[0]] + s[1..][..k] && s[..k + 1][1..] == s[1..][..k];
           assert s[..k + 2] == [s[0]] + s[1..][..k + 1] && s[..k + 2][1..] == s[1..][..k + 1];
           None
         else None)
      case Some(p) => Some([s[0]] + p)
  }

  /**
   * The longest prefix of `s` that fits in `n` bytes: the slice up to
   * `str::floor_char_boundary(n)`.
   */
  function FloorPrefix(s: string, n: nat): (r: string)
    ensures r <= s && ByteLen(r) <= n
    ensures r == s || ByteLen(r) + Utf8Width(s[|r|]) > n
  {
    if s == [] || Utf8Width(s[0]) > n then []
    else [s[0]] + FloorPrefix(s[1..], n - Utf8Width(s[0]))
  }

  lemma {:induction false} CountCharAppend(a: string, b: string, c: char)
    ensures CountChar(a + b, c) == CountChar(a, c) + CountChar(b, c)
  {
    if a == [] {
      assert a + b == b;
    } else {
      assert (a + b)[1..] == a[1..] + b;
      CountCharAppend(a[1..], b, c);
    }
  }

  function Repeat(c: char, n: nat): (r: string)
    ensures |r| == n && forall i :: 0 <= i < n ==> r[i] == c
  {
    if n == 0 then [] else [c] + Repeat(c, n - 1)
  }

  lemma {:induction false} ByteLenRepeatAscii(c: char, n: nat)
    requires c as int < 0x80
    ensures ByteLen(Repeat(c, n)) == n
  {
    if n > 0 {
      assert Repeat(c, n)[1..] == Repeat(c, n - 1);
      ByteLenRepeatAscii(c, n - 1);
    }
  }

  /** A byte offset strictly inside a character has no exact prefix. */
  lemma {:induction false} BytePrefixInsideChar(a: string, c: char, rest: string, n: nat)
    requires ByteLen(a) < n < ByteLen(a) + Utf8Width(c)
    ensures BytePrefix(a + [c] + rest, n) == None
  {
    var s := a + [c] + rest;
    if a == [] {
      assert s[0] == c;
    } else {
      assert s[0] == a[0] && s[1..] == a[1..] + [c] + rest;
      BytePrefixInsideChar(a[1..], c, rest, n - Utf8Width(a[0]));
    }
  }

  /** Where an exact prefix exists, it is the floor prefix. */
  lemma {:induction false} BytePrefixIsFloor(s: string, n: nat)
    requires BytePrefix(s, n).Some?
    ensures BytePrefix(s, n).value == FloorPrefix(s, n)
  {
    if n == 0 {
      if s != [] {
        assert Utf8Width(s[0]) > 0;
      }
    } else {
      BytePrefixIsFloor(s[1..], n - Utf8Width(s[0]));
    }
  }

  /** `lines.join("\n")`. */
  function JoinLines(lines: seq<string>): string {
    if |lines| == 0 then ""
    else if |lines| == 1 then lines[0]
    else JoinLines(lines[..|lines| - 1]) + "\n" + lines[|lines| - 1]
  }

  /** Joining a prefix of the lines gives a prefix of the joined text. */
  lemma {:induction false} JoinLinesPrefix(lines: seq<string>, k: nat)
    requires 1 <= k <= |lines|
    ensures JoinLines(lines[..k]) <= JoinLines(lines)
  {
    if k < |lines| {
      var init := lines[..|lines| - 1];
      assert init[..k] == lines[..k];
      JoinLinesPrefix(init, k);
    } else {
      assert lines[..k] == lines;
    }
  }

  /** One more line: the join grows by a newline and that line. */
  lemma JoinLinesSnoc(lines: seq<string>, k: nat)
    requires 1 <= k < |lines|
    ensures JoinLines(lines[..k + 1]) == JoinLines(lines[..k]) + "\n" + lines[k]
  {
    assert lines[..k + 1][..k] == lines[..k];
  }
}
