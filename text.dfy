/** The string operations the core relies on: SQLite's `LOWER()`, Kotlin's
    `isWhitespace`/`isBlank`/`trim`, `length`, `isDigit`, `String.toDouble()` on the
    strings the amount field admits, and `Int.toString()`. */
module Text {
  import opened Wrappers

  // ---------------------------------------------------------------- case folding

  predicate IsAsciiUpper(c: char) { 'A' <= c <= 'Z' }

  /** SQLite's built-in `LOWER()` folds the 26 ASCII capitals and nothing else. */
  function LowerChar(c: char): (d: char)
    ensures !IsAsciiUpper(d)
    ensures IsAsciiUpper(c) ==> d as int == c as int + 32
    ensures !IsAsciiUpper(c) ==> d == c
  {
    if IsAsciiUpper(c) then (c as int + 32) as char else c
  }

  function Lower(s: string): (r: string)
    ensures |r| == |s|
    ensures forall i :: 0 <= i < |s| ==> r[i] == LowerChar(s[i])
  {
    seq(|s|, i requires 0 <= i < |s| => LowerChar(s[i]))
  }

  /** Folding twice is folding once, so "equal ignoring case" compares canonical forms. */
  lemma LowerIdempotent(s: string)
    ensures Lower(Lower(s)) == Lower(s)
  {
    forall i | 0 <= i < |s|
      ensures Lower(Lower(s))[i] == Lower(s)[i]
    {
      assert !IsAsciiUpper(Lower(s)[i]);
    }
  }

  // ---------------------------------------------------------------- whitespace

  /** Kotlin's `Char.isWhitespace()`: Java's `isWhitespace` or `isSpaceChar`, i.e. the
      controls TAB..CR and FS..US, and the space, line and paragraph separators. */
  predicate IsWhitespace(c: char) {
    || c == ' '
    || ('\t' <= c <= '\r')
    || ('\U{001C}' <= c <= '\U{001F}')
    || c == '\U{00A0}' || c == '\U{1680}'
    || ('\U{2000}' <= c <= '\U{200A}')
    || c == '\U{2028}' || c == '\U{2029}' || c == '\U{202F}' || c == '\U{205F}' || c == '\U{3000}'
  }

  /** Kotlin's `isBlank()`: empty or whitespace only. */
  predicate IsBlank(s: string) {
    forall i :: 0 <= i < |s| ==> IsWhitespace(s[i])
  }

  /** Number of leading whitespace characters. */
  function LeadingBlanks(s: string): (n: nat)
    ensures n <= |s|
    ensures forall i :: 0 <= i < n ==> IsWhitespace(s[i])
    ensures n < |s| ==> !IsWhitespace(s[n])
  {
    if s == [] || !IsWhitespace(s[0]) then 0 else 1 + LeadingBlanks(s[1..])
  }

  /** Number of trailing whitespace characters. */
  function TrailingBlanks(s: string): (n: nat)
    ensures n <= |s|
    ensures forall i :: |s| - n <= i < |s| ==> IsWhitespace(s[i])
    ensures n < |s| ==> !IsWhitespace(s[|s| - 1 - n])
  {
    if s == [] || !IsWhitespace(s[|s| - 1]) then 0 else 1 + TrailingBlanks(s[..|s| - 1])
  }

  /** Kotlin's `String.trim()`: drops whitespace at both ends. */
  function Trim(s: string): (r: string)
    ensures |r| <= |s|
    ensures r == [] <==> IsBlank(s)
    ensures r != [] ==> !IsWhitespace(r[0]) && !IsWhitespace(r[|r| - 1])
  {
    var rest := s[LeadingBlanks(s)..];
    rest[..|rest| - TrailingBlanks(rest)]
  }

  /** What `trim` keeps is one contiguous piece of the input; what it drops is whitespace. */
  lemma TrimSlice(s: string)
    ensures LeadingBlanks(s) + |Trim(s)| <= |s|
    ensures Trim(s) == s[LeadingBlanks(s)..LeadingBlanks(s) + |Trim(s)|]
    ensures forall i :: 0 <= i < LeadingBlanks(s) || LeadingBlanks(s) + |Trim(s)| <= i < |s| ==> IsWhitespace(s[i])
  {
    var a := LeadingBlanks(s);
    var rest := s[a..];
    var t := TrailingBlanks(rest);
    var r := Trim(s);
    assert r == rest[..|rest| - t];
    assert |r| == |s| - a - t;
    assert r == s[a..a + |r|];
    forall i | a + |r| <= i < |s|
      ensures IsWhitespace(s[i])
    {
      assert s[i] == rest[i - a];
      assert |rest| - t <= i - a < |rest|;
    }
  }

  /** Trimming an already trimmed string changes nothing. */
  lemma TrimIdempotent(s: string)
    ensures Trim(Trim(s)) == Trim(s)
  {
    var t := Trim(s);
    if t != [] {
      assert LeadingBlanks(t) == 0;
      assert t[0..] == t;
      assert TrailingBlanks(t) == 0;
    }
  }

  // ---------------------------------------------------------------- UTF-16 length

  /** The UTF-16 code units of a character: a surrogate pair for one above
      U+FFFF, a single unit otherwise. */
  function Utf16Units(c: char): nat {
    if c as int > 0xFFFF then 2 else 1
  }

  /** Kotlin's `String.length`: the number of UTF-16 code units, between one
      and two per character. */
  function Utf16Length(s: string): (n: nat)
    ensures |s| <= n <= 2 * |s|
  {
    if s == [] then 0 else Utf16Units(s[0]) + Utf16Length(s[1..])
  }

  /** Text with no character above U+FFFF is as long in UTF-16 as in characters. */
  lemma {:induction false} Utf16LengthBmp(s: string)
    requires forall i :: 0 <= i < |s| ==> s[i] as int <= 0xFFFF
    ensures Utf16Length(s) == |s|
  {
    if s != [] {
      Utf16LengthBmp(s[1..]);
    }
  }

  /** Text made only of characters above U+FFFF, such as emoji, is twice as
      long in UTF-16 as in characters. */
  lemma {:induction false} Utf16LengthAstral(s: string)
    requires forall i :: 0 <= i < |s| ==> s[i] as int > 0xFFFF
    ensures Utf16Length(s) == 2 * |s|
  {
    if s != [] {
      Utf16LengthAstral(s[1..]);
    }
  }

  // ---------------------------------------------------------------- digits and numbers

  /** `Char.isDigit()`, restricted to the ASCII digits. */
  predicate IsDigit(c: char) { '0' <= c <= '9' }

  predicate AllDigits(s: string) {
    forall i :: 0 <= i < |s| ==> IsDigit(s[i])
  }

  function DigitValue(c: char): (v: nat)
    requires IsDigit(c)
    ensures v < 10
  {
    c as int - '0' as int
  }

  function DigitChar(v: nat): (c: char)
    requires v < 10
    ensures IsDigit(c) && DigitValue(c) == v
  {
    ('0' as int + v) as char
  }

  /** The value of a string of decimal digits, most significant first. */
  function DigitsValue(s: string): nat
    requires AllDigits(s)
  {
    if s == [] then 0 else 10 * DigitsValue(s[..|s| - 1]) + DigitValue(s[|s| - 1])
  }

  function Pow10(n: nat): (p: nat)
    ensures p >= 1
  {
    if n == 0 then 1 else 10 * Pow10(n - 1)
  }

  /** The position of the first `c` in `s`, or `|s|`. */
  function IndexOf(s: string, c: char): (k: nat)
    ensures k <= |s|
    ensures k < |s| ==> s[k] == c
    ensures forall i :: 0 <= i < k ==> s[i] != c
  {
    if s == [] then 0 else if s[0] == c then 0 else 1 + IndexOf(s[1..], c)
  }

  /** The strings of digits and points that Java's `Double.parseDouble` accepts:
      at least one digit and at most one point. */
  predicate IsDecimal(s: string) {
    && (forall i :: 0 <= i < |s| ==> IsDigit(s[i]) || s[i] == '.')
    && (exists i :: 0 <= i < |s| && IsDigit(s[i]))
    && (forall i, j :: 0 <= i < j < |s| && s[i] == '.' ==> s[j] != '.')
  }

  /** The value of the digits `ip`, a point and the digits `fp`: the whole part
      plus the fraction part scaled down by its number of digits. */
  function DecimalValue(ip: string, fp: string): real
    requires AllDigits(ip) && AllDigits(fp)
  {
    DigitsValue(ip) as real + DigitsValue(fp) as real / Pow10(|fp|) as real
  }

  /** `String.toDouble()` on a string of digits and points, with the decimal value
      taken exactly; `None` where the call throws `NumberFormatException`. */
  function ParseAmount(s: string): (r: Option<real>)
    ensures r.Some? <==> IsDecimal(s)
    ensures r.Some? ==> r.value >= 0.0
  {
    var k := IndexOf(s, '.');
    var ip := s[..k];
    var fp := if k < |s| then s[k + 1..] else [];
    DecimalParts(s);
    if AllDigits(ip) && AllDigits(fp) && |ip| + |fp| > 0 then
      DecimalFromParts(s);
      Some(DecimalValue(ip, fp))
    else
      None
  }

  /** A string whose parts around its first point are digits, not both empty, is decimal. */
  lemma DecimalFromParts(s: string)
    requires var k := IndexOf(s, '.');
             && AllDigits(s[..k])
             && AllDigits(if k < |s| then s[k + 1..] else [])
             && |s[..k]| + |if k < |s| then s[k + 1..] else []| > 0
    ensures IsDecimal(s)
  {
    var k := IndexOf(s, '.');
    var ip := s[..k];
    var fp := if k < |s| then s[k + 1..] else [];
    forall i | 0 <= i < |s| ensures IsDigit(s[i]) || s[i] == '.' {
      if i < k { assert s[i] == ip[i]; } else if i > k { assert s[i] == fp[i - k - 1]; }
    }
    if |ip| > 0 {
      assert IsDigit(s[0]) by { assert s[0] == ip[0]; }
    } else {
      assert IsDigit(s[k + 1]) by { assert s[k + 1] == fp[0]; }
    }
    forall i, j | 0 <= i < j < |s| && s[i] == '.' ensures s[j] != '.' {
      assert i >= k;
      assert fp[j - k - 1] == s[j];
    }
  }

  /** In a decimal string, the digits before and after the point form the two parts. */
  lemma DecimalParts(s: string)
    ensures IsDecimal(s) ==>
              var k := IndexOf(s, '.');
              && AllDigits(s[..k])
              && AllDigits(if k < |s| then s[k + 1..] else [])
              && |s[..k]| + |if k < |s| then s[k + 1..] else []| > 0
  {
    if IsDecimal(s) {
      var k := IndexOf(s, '.');
      var fp := if k < |s| then s[k + 1..] else [];
      forall i | 0 <= i < |fp| ensures IsDigit(fp[i]) {
        assert fp[i] == s[k + 1 + i];
      }
      var i :| 0 <= i < |s| && IsDigit(s[i]);
    }
  }

  /** `Int.toString()` for non-negative values: decimal digits, no leading zero. */
  function NatToString(n: nat): (s: string)
    ensures s != [] && AllDigits(s)
    ensures |s| > 1 ==> s[0] != '0'
  {
    if n < 10 then [DigitChar(n)] else NatToString(n / 10) + [DigitChar(n % 10)]
  }

  /** `Int.toString()`: a minus sign before the digits of a negative value. */
  function IntToString(n: int): (s: string)
    ensures s != []
    ensures n < 0 <==> s[0] == '-'
    ensures n >= 0 ==> AllDigits(s) && DigitsValue(s) == n
    ensures n < 0 ==> AllDigits(s[1..]) && DigitsValue(s[1..]) == -n
  {
    if n < 0 then
      NatToStringValue(-n);
      assert ("-" + NatToString(-n))[1..] == NatToString(-n);
      "-" + NatToString(-n)
    else
      NatToStringValue(n);
      NatToString(n)
  }

  lemma {:induction false} NatToStringValue(n: nat)
    ensures DigitsValue(NatToString(n)) == n
  {
    if n >= 10 {
      var s := NatToString(n);
      NatToStringValue(n / 10);
      assert s[..|s| - 1] == NatToString(n / 10);
    }
  }

  /** Printing a whole number and parsing it back gives that number. */
  lemma ParsePrintedNat(n: nat)
    ensures ParseAmount(NatToString(n)) == Some(n as real)
  {
    NatToStringValue(n);
    ParseDigits(NatToString(n));
  }

  /** Digits, a point and digits, not both parts empty, parse to the whole part
      plus the fraction part scaled down by its number of digits: "12.5" is 12.5,
      "5." is 5 and ".25" is 0.25. */
  lemma ParseFraction(ip: string, fp: string)
    requires AllDigits(ip) && AllDigits(fp) && |ip| + |fp| > 0
    ensures ParseAmount(ip + "." + fp) == Some(DecimalValue(ip, fp))
  {
    var s := ip + "." + fp;
    PointAfterDigits(ip, fp);
    var k := IndexOf(s, '.');
    assert s[..k] == ip;
    assert (if k < |s| then s[k + 1..] else []) == fp;
  }

  /** The first point of `ip + "." + fp` follows the digits `ip`. */
  lemma PointAfterDigits(ip: string, fp: string)
    requires AllDigits(ip)
    ensures IndexOf(ip + "." + fp, '.') == |ip|
  {
    var s := ip + "." + fp;
    var k := IndexOf(s, '.');
    assert s[|ip|] == '.';
  }

  /** A non-empty string of digits parses to its value. */
  lemma ParseDigits(s: string)
    requires s != [] && AllDigits(s)
    ensures ParseAmount(s) == Some(DigitsValue(s) as real)
  {
    var k := IndexOf(s, '.');
    assert k == |s|;
    assert s[..k] == s;
    var fp: string := [];
    assert DigitsValue(fp) == 0 && Pow10(|fp|) == 1;
  }
}
