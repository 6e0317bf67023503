/**
 * String helpers shared by the PHP and JavaScript code: `explode`/`split`,
 * `implode`/`join`, `trim`, PHP's `empty()` on strings, and decimal rendering
 * of a timestamp.
 */
module Text {

  /** The characters PHP's `trim` removes: space, tab, LF, CR, NUL, vertical tab. */
  predicate IsTrimmed(c: char) {
    c == ' ' || c == '\t' || c == '\n' || c == '\r' || c == '\0' || c == '\U{000B}'
  }

  /**
   * The characters JavaScript's `String.prototype.trim` removes: the
   * ECMAScript white space and line terminators (no NUL, but form feed,
   * no-break space and the Unicode space separators).
   */
  predicate IsJsSpace(c: char) {
    c == ' ' || c == '\t' || c == '\n' || c == '\r' || c == '\U{000B}' || c == '\U{000C}'
    || c == '\U{00A0}' || c == '\U{1680}' || ('\U{2000}' <= c <= '\U{200A}')
    || c == '\U{2028}' || c == '\U{2029}' || c == '\U{202F}' || c == '\U{205F}'
    || c == '\U{3000}' || c == '\U{FEFF}'
  }

  function TrimLeft(s: string, space: char -> bool): string {
    if s != [] && space(s[0]) then TrimLeft(s[1..], space) else s
  }

  function TrimRight(s: string, space: char -> bool): string {
    if s != [] && space(s[|s| - 1]) then TrimRight(s[..|s| - 1], space) else s
  }

  /** PHP `trim`: no longer than its input, and neither end is one of PHP's trimmed characters. */
  function Trim(s: string): (r: string)
    ensures |r| <= |s| && Stripped(r, IsTrimmed)
  {
    TrimBoth(s, IsTrimmed);
    TrimRight(TrimLeft(s, IsTrimmed), IsTrimmed)
  }

  /** JavaScript `String.prototype.trim`: no longer than its input, and neither end is JavaScript whitespace. */
  function JsTrim(s: string): (r: string)
    ensures |r| <= |s| && Stripped(r, IsJsSpace)
  {
    TrimBoth(s, IsJsSpace);
    TrimRight(TrimLeft(s, IsJsSpace), IsJsSpace)
  }

  /** TrimLeft removes a prefix of spaces and stops at the first other character. */
  lemma {:induction false} TrimLeftShape(s: string, space: char -> bool)
    ensures var r := TrimLeft(s, space);
      |r| <= |s| && r == s[|s| - |r|..] && (r == [] || !space(r[0])) &&
      forall i :: 0 <= i < |s| - |r| ==> space(s[i])
  {
    if s != [] && space(s[0]) {
      TrimLeftShape(s[1..], space);
      var r := TrimLeft(s, space);
      forall i | 1 <= i < |s| - |r|
        ensures space(s[i])
      {
        assert s[i] == s[1..][i - 1];
      }
    }
  }

  /** TrimRight removes a suffix of spaces and stops at the last other character. */
  lemma {:induction false} TrimRightShape(s: string, space: char -> bool)
    ensures var r := TrimRight(s, space);
      |r| <= |s| && r == s[..|r|] && (r == [] || !space(r[|r| - 1])) &&
      forall i :: |r| <= i < |s| ==> space(s[i])
  {
    if s != [] && space(s[|s| - 1]) {
      TrimRightShape(s[..|s| - 1], space);
      var r := TrimRight(s, space);
      forall i | |r| <= i < |s| - 1
        ensures space(s[i])
      {
        assert s[i] == s[..|s| - 1][i];
      }
    }
  }

  /** Neither the first nor the last character of `s` is a space. */
  predicate Stripped(s: string, space: char -> bool) {
    s == [] || (!space(s[0]) && !space(s[|s| - 1]))
  }

  /** Trimming both ends leaves a stripped piece of the input: no longer, and with no character the input lacks. */
  lemma TrimBoth(s: string, space: char -> bool)
    ensures var r := TrimRight(TrimLeft(s, space), space);
      |r| <= |s| && Stripped(r, space) && forall c :: c in r ==> c in s
  {
    var l := TrimLeft(s, space);
    TrimLeftShape(s, space);
    TrimRightShape(l, space);
    var r := TrimRight(l, space);
    if r != [] {
      assert r[0] == l[0];
    }
    forall c | c in r
      ensures c in s
    {
      var j :| 0 <= j < |r| && r[j] == c;
      assert l[j] == c;
      assert s[|s| - |l| + j] == c;
    }
  }

  /** PHP `trim` leaves a stripped substring. */
  lemma TrimTrims(s: string)
    ensures var r := Trim(s);
      |r| <= |s| && Stripped(r, IsTrimmed) && forall c :: c in r ==> c in s
  {
    TrimBoth(s, IsTrimmed);
  }

  /** JavaScript `trim` leaves a stripped substring. */
  lemma JsTrimTrims(s: string)
    ensures var r := JsTrim(s);
      |r| <= |s| && Stripped(r, IsJsSpace) && forall c :: c in r ==> c in s
  {
    TrimBoth(s, IsJsSpace);
  }

  /** PHP `empty()` on a string: true for "" and for "0". */
  predicate PhpEmpty(s: string) {
    s == "" || s == "0"
  }

  /**
   * PHP `explode(sep, s)` / JavaScript `s.split(sep)` for a one-character
   * separator: the pieces between separators, always at least one.
   */
  function Split(s: string, sep: char): (parts: seq<string>)
    ensures |parts| >= 1
    ensures forall i :: 0 <= i < |parts| ==> sep !in parts[i]
  {
    if s == [] then [""]
    else
      var rest := Split(s[1..], sep);
      if s[0] == sep then [""] + rest
      else [[s[0]] + rest[0]] + rest[1..]
  }

  /** PHP `implode(sep, parts)` / JavaScript `parts.join(sep)`. */
  function Join(parts: seq<string>, sep: char): string
  {
    if parts == [] then ""
    else if |parts| == 1 then parts[0]
    else parts[0] + [sep] + Join(parts[1..], sep)
  }

  lemma {:induction false} SplitPrefix(a: string, rest: string, sep: char)
    requires sep !in a
    ensures Split(a + [sep] + rest, sep) == [a] + Split(rest, sep)
    decreases |a|
  {
    if a == [] {
      assert a + [sep] + rest == [sep] + rest;
      assert ([sep] + rest)[1..] == rest;
    } else {
      var t := a + [sep] + rest;
      assert t[0] == a[0];
      assert t[1..] == a[1..] + [sep] + rest;
      SplitPrefix(a[1..], rest, sep);
      assert [a[0]] + a[1..] == a;
    }
  }

  lemma {:induction false} SplitNoSep(a: string, sep: char)
    requires sep !in a
    ensures Split(a, sep) == [a]
    decreases |a|
  {
    if a != [] {
      SplitNoSep(a[1..], sep);
      assert [a[0]] + a[1..] == a;
    }
  }

  /** Joining pieces that hold no separator and splitting again gives the pieces back. */
  lemma {:induction false} SplitJoin(parts: seq<string>, sep: char)
    requires |parts| >= 1
    requires forall i :: 0 <= i < |parts| ==> sep !in parts[i]
    ensures Split(Join(parts, sep), sep) == parts
    decreases |parts|
  {
    if |parts| == 1 {
      SplitNoSep(parts[0], sep);
    } else {
      SplitJoin(parts[1..], sep);
      SplitPrefix(parts[0], Join(parts[1..], sep), sep);
      assert [parts[0]] + parts[1..] == parts;
    }
  }

  function DigitChar(d: nat): (c: char)
    requires d < 10
    ensures '0' <= c <= '9' && c as int - '0' as int == d
  {
    ('0' as int + d) as char
  }

  /** The number a string of decimal digits denotes, read left to right. */
  function DigitsValue(s: string): int {
    if s == [] then 0 else DigitsValue(s[..|s| - 1]) * 10 + (s[|s| - 1] as int - '0' as int)
  }

  /**
   * The decimal rendering of a timestamp, as PHP's string concatenation and
   * JavaScript's template literals print it: digits without a leading zero
   * that denote `n`, so distinct timestamps give distinct texts.
   */
  function Decimal(n: nat): (s: string)
    ensures |s| >= 1
    ensures forall i :: 0 <= i < |s| ==> '0' <= s[i] <= '9'
    ensures s[0] != '0' || s == "0"
    ensures DigitsValue(s) == n
  {
    if n < 10 then [DigitChar(n)]
    else
      var high := Decimal(n / 10);
      var s := high + [DigitChar(n % 10)];
      assert s[..|s| - 1] == high;
      s
  }

  /** PHP's string form of an integer: a minus sign exactly for a negative number, then the digits of its magnitude. */
  function Signed(n: int): (s: string)
    ensures |s| >= 1
    ensures (s[0] == '-') == (n < 0)
    ensures DigitsValue(if n < 0 then s[1..] else s) == (if n < 0 then -n else n)
  {
    if n >= 0 then Decimal(n)
    else
      var s := "-" + Decimal(-n);
      assert s[1..] == Decimal(-n);
      s
  }
}
