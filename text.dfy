/**
 * The two pieces of .NET text handling the option scanner relies on:
 * `int.TryParse` with its default number style (surrounding white space,
 * an optional leading sign, decimal digits, 32-bit range) and `ToLower`,
 * both restricted to ASCII.
 */
module Text {
  import opened Wrappers

  /** C#'s `int`: a two's-complement 32-bit integer. */
  newtype int32 = x: int | -0x8000_0000 <= x < 0x8000_0000

  const Int32Min: int := -0x8000_0000
  const Int32Max: int := 0x7FFF_FFFF

  // ---------------------------------------------------------------- white space

  /** The characters the integer parser skips around a number: tab, line feed,
      vertical tab, form feed, carriage return and space. */
  predicate IsWhite(c: char) {
    c == ' ' || '\t' <= c <= '\r'
  }

  /** Drops the leading white space of `s`. */
  function TrimStart(s: string): (r: string)
    ensures |r| <= |s| && r == s[|s| - |r|..]
    ensures forall i :: 0 <= i < |s| - |r| ==> IsWhite(s[i])
    ensures r == [] || !IsWhite(r[0])
  {
    if s != [] && IsWhite(s[0]) then TrimStart(s[1..]) else s
  }

  /** Drops the trailing white space of `s`. */
  function TrimEnd(s: string): (r: string)
    ensures |r| <= |s| && r == s[..|r|]
    ensures forall i :: |r| <= i < |s| ==> IsWhite(s[i])
    ensures r == [] || !IsWhite(r[|r| - 1])
  {
    if s != [] && IsWhite(s[|s| - 1]) then TrimEnd(s[..|s| - 1]) else s
  }

  function Trim(s: string): string {
    TrimEnd(TrimStart(s))
  }

  // ---------------------------------------------------------------- digits

  predicate IsDigit(c: char) {
    '0' <= c <= '9'
  }

  predicate AllDigits(s: string) {
    forall i :: 0 <= i < |s| ==> IsDigit(s[i])
  }

  function DigitValue(c: char): (d: nat)
    requires IsDigit(c)
    ensures d < 10
  {
    c as int - '0' as int
  }

  function DigitChar(d: nat): (c: char)
    requires d < 10
    ensures IsDigit(c) && DigitValue(c) == d
  {
    ('0' as int + d) as char
  }

  /** The value of a string of decimal digits, read most significant digit first. */
  function DigitsValue(s: string): nat
    requires AllDigits(s)
  {
    if s == [] then 0 else 10 * DigitsValue(s[..|s| - 1]) + DigitValue(s[|s| - 1])
  }

  /** The shortest decimal spelling of `n`. */
  function Decimal(n: nat): (r: string)
    ensures r != [] && AllDigits(r)
  {
    if n < 10 then [DigitChar(n)] else Decimal(n / 10) + [DigitChar(n % 10)]
  }

  lemma {:induction false} DecimalValue(n: nat)
    ensures DigitsValue(Decimal(n)) == n
  {
    var r := Decimal(n);
    if n >= 10 {
      assert r[..|r| - 1] == Decimal(n / 10);
      DecimalValue(n / 10);
    }
  }

  // ---------------------------------------------------------------- int.TryParse

  /**
   * `int.TryParse(s, out v)`: None where TryParse returns false, Some(v) where
   * it returns true. After trimming white space the text is an optional `+` or
   * `-` followed by one or more ASCII digits, and the value must fit in 32 bits.
   */
  function ParseInt(s: string): (r: Option<int32>)
    ensures Trim(s) == [] ==> r.None?
    ensures r.Some? ==> IsDigit(Trim(s)[|Trim(s)| - 1])
    ensures r.Some? && r.value < 0 ==> Trim(s)[0] == '-'
  {
    ParseTrimmed(Trim(s))
  }

  /** An optional sign and at least one digit, nothing else, within 32 bits. */
  function ParseTrimmed(t: string): Option<int32> {
    var signed := |t| > 0 && (t[0] == '-' || t[0] == '+');
    var digits := if signed then t[1..] else t;
    if digits == [] || !AllDigits(digits) then None
    else
      var v: int := if signed && t[0] == '-' then -(DigitsValue(digits) as int) else DigitsValue(digits);
      if Int32Min <= v <= Int32Max then Some(v as int32) else None
  }

  /** The way `Int32.ToString()` spells a value under the invariant culture. */
  function Show(n: int32): (r: string)
  {
    if n < 0 then "-" + Decimal(-(n as int)) else Decimal(n as int)
  }

  /** Parsing reads back every 32-bit value from its own spelling. */
  lemma ParseShow(n: int32)
    ensures ParseInt(Show(n)) == Some(n)
  {
    var s := Show(n);
    var m: nat := if n < 0 then -(n as int) else n as int;
    var d := Decimal(m);
    assert s == if n < 0 then "-" + d else d;
    assert s[|s| - 1] == d[|d| - 1];
    TrimUnchanged(s);
    if n < 0 {
      assert s[1..] == d;
    } else {
      assert !(s[0] == '-' || s[0] == '+');
    }
    DecimalValue(m);
  }

  /** A string that neither starts nor ends with white space is its own trim. */
  lemma TrimUnchanged(s: string)
    requires s != [] && !IsWhite(s[0]) && !IsWhite(s[|s| - 1])
    ensures Trim(s) == s
  {
    assert TrimStart(s) == s;
    assert TrimEnd(s) == s;
  }

  /** Surrounding white space never changes what is parsed. */
  lemma {:induction false} ParseIgnoresWhite(w: string, s: string, w': string)
    requires forall i :: 0 <= i < |w| ==> IsWhite(w[i])
    requires forall i :: 0 <= i < |w'| ==> IsWhite(w'[i])
    ensures ParseInt(w + s + w') == ParseInt(s)
  {
    TrimIgnoresWhite(w, s, w');
  }

  lemma {:induction false} TrimIgnoresWhite(w: string, s: string, w': string)
    requires forall i :: 0 <= i < |w| ==> IsWhite(w[i])
    requires forall i :: 0 <= i < |w'| ==> IsWhite(w'[i])
    ensures Trim(w + s + w') == Trim(s)
  {
    assert w + s + w' == w + (s + w');
    TrimStartWhitePrefix(w, s + w');
    TrimStartKeepsSuffix(s, w');
    if TrimStart(s) != [] {
      TrimEndWhiteSuffix(TrimStart(s), w');
    }
  }

  lemma {:induction false} TrimStartWhitePrefix(w: string, s: string)
    requires forall i :: 0 <= i < |w| ==> IsWhite(w[i])
    ensures TrimStart(w + s) == TrimStart(s)
  {
    if w != [] {
      var ws := w + s;
      assert ws != [] && ws[0] == w[0] && IsWhite(ws[0]);
      assert ws[1..] == w[1..] + s;
      assert TrimStart(ws) == TrimStart(ws[1..]);
      TrimStartWhitePrefix(w[1..], s);
    } else {
      assert w + s == s;
    }
  }

  lemma {:induction false} TrimStartKeepsSuffix(s: string, w': string)
    requires forall i :: 0 <= i < |w'| ==> IsWhite(w'[i])
    ensures TrimStart(s + w') == if TrimStart(s) == [] then [] else TrimStart(s) + w'
  {
    if s == [] {
      assert s + w' == [] + w';
      TrimStartWhitePrefix(w', []);
      assert w' + [] == w';
    } else {
      var sw := s + w';
      assert sw != [] && sw[0] == s[0];
      if IsWhite(s[0]) {
        assert sw[1..] == s[1..] + w';
        assert TrimStart(sw) == TrimStart(sw[1..]);
        assert TrimStart(s) == TrimStart(s[1..]);
        TrimStartKeepsSuffix(s[1..], w');
      } else {
        assert TrimStart(sw) == sw;
        assert TrimStart(s) == s;
      }
    }
  }

  lemma {:induction false} TrimEndWhiteSuffix(s: string, w': string)
    requires forall i :: 0 <= i < |w'| ==> IsWhite(w'[i])
    ensures TrimEnd(s + w') == TrimEnd(s)
  {
    if w' != [] {
      assert (s + w')[..|s + w'| - 1] == s + w'[..|w'| - 1];
      TrimEndWhiteSuffix(s, w'[..|w'| - 1]);
    } else {
      assert s + w' == s;
    }
  }

  // ---------------------------------------------------------------- ToLower

  predicate IsUpper(c: char) {
    'A' <= c <= 'Z'
  }

  function LowerChar(c: char): char {
    if IsUpper(c) then (c as int + 32) as char else c
  }

  function UpperChar(c: char): char {
    if 'a' <= c <= 'z' then (c as int - 32) as char else c
  }

  /** `s.ToLower()` on ASCII letters; every other character is kept. */
  function Lower(s: string): (r: string)
    ensures |r| == |s|
    ensures forall i :: 0 <= i < |s| ==> r[i] == LowerChar(s[i])
    ensures forall i :: 0 <= i < |r| ==> !IsUpper(r[i])
  {
    seq(|s|, i requires 0 <= i < |s| => LowerChar(s[i]))
  }

  /** A string lower-cases to an all-lower-case ASCII word `w` exactly when each
      of its characters is that word's character or its capital. */
  lemma LowerMatches(s: string, w: string)
    requires forall i :: 0 <= i < |w| ==> !IsUpper(w[i]) && w[i] as int < 128
    ensures Lower(s) == w <==>
      |s| == |w| && forall i :: 0 <= i < |s| ==> s[i] == w[i] || s[i] == UpperChar(w[i])
  {
    if |s| == |w| && forall i :: 0 <= i < |s| ==> s[i] == w[i] || s[i] == UpperChar(w[i]) {
      assert forall i :: 0 <= i < |s| ==> Lower(s)[i] == w[i];
    }
  }
}
