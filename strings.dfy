/**
 * The JavaScript string built-ins the admin panel relies on: trim, toLowerCase,
 * toUpperCase, split, join, includes, replace of single characters, padStart
 * and the decimal printing and parsing of integers.
 * Whitespace is the full set JavaScript's `trim` and `\s` use (white space and
 * line terminators). Case mapping covers the ASCII letters only. Text is a
 * sequence of Unicode code points, compared and counted code point by code point,
 * where a JavaScript string is a sequence of UTF-16 code units.
 */
module Strings {
  import opened Wrappers

  /** The characters removed by `trim` and matched by the regex class `\s`. */
  predicate IsSpace(c: char)
  {
    c == ' ' || c == '\t' || c == '\n' || c == '\r' || c == '\U{000B}' || c == '\U{000C}'
    || c == '\U{00A0}' || c == '\U{1680}' || '\U{2000}' <= c <= '\U{200A}' || c == '\U{2028}'
    || c == '\U{2029}' || c == '\U{202F}' || c == '\U{205F}' || c == '\U{3000}' || c == '\U{FEFF}'
  }

  predicate IsDigit(c: char) { '0' <= c <= '9' }
  predicate IsUpper(c: char) { 'A' <= c <= 'Z' }
  predicate IsLowerLetter(c: char) { 'a' <= c <= 'z' }
  /** The regex class `[a-z0-9]`. */
  predicate IsLowerAlnum(c: char) { IsLowerLetter(c) || IsDigit(c) }

  predicate NoUpper(s: string) { forall i :: 0 <= i < |s| ==> !IsUpper(s[i]) }
  predicate AllDigits(s: string) { forall i :: 0 <= i < |s| ==> IsDigit(s[i]) }
  predicate IsBlank(s: string) { forall i :: 0 <= i < |s| ==> IsSpace(s[i]) }
  predicate IsTrimmed(s: string) { s == [] || (!IsSpace(s[0]) && !IsSpace(s[|s| - 1])) }
  predicate HasNoSpace(s: string) { forall i :: 0 <= i < |s| ==> !IsSpace(s[i]) }

  // ---------------------------------------------------------------- trimming

  function TrimStart(s: string): (r: string)
    ensures |r| <= |s|
    ensures r == [] || !IsSpace(r[0])
  {
    if s == [] || !IsSpace(s[0]) then s else TrimStart(s[1..])
  }

  function TrimEnd(s: string): (r: string)
    ensures |r| <= |s|
    ensures r == [] || !IsSpace(r[|r| - 1])
  {
    if s == [] || !IsSpace(s[|s| - 1]) then s else TrimEnd(s[..|s| - 1])
  }

  /** Dropping leading whitespace leaves a suffix, and nothing only for blank text. */
  lemma {:induction false} TrimStartSuffix(s: string)
    ensures TrimStart(s) == s[|s| - |TrimStart(s)|..]
    ensures TrimStart(s) == [] <==> IsBlank(s)
  {
    if s != [] && IsSpace(s[0]) {
      TrimStartSuffix(s[1..]);
      assert s[1..][|s| - 1 - |TrimStart(s)|..] == s[|s| - |TrimStart(s)|..];
      if !IsBlank(s) {
        var i :| 0 <= i < |s| && !IsSpace(s[i]);
        assert s[1..][i - 1] == s[i];
      }
    }
  }

  /** Dropping trailing whitespace leaves a prefix, and nothing only for blank text. */
  lemma {:induction false} TrimEndPrefix(s: string)
    ensures TrimEnd(s) == s[..|TrimEnd(s)|]
    ensures TrimEnd(s) == [] <==> IsBlank(s)
  {
    if s != [] && IsSpace(s[|s| - 1]) {
      var front := s[..|s| - 1];
      TrimEndPrefix(front);
      assert front[..|TrimEnd(s)|] == s[..|TrimEnd(s)|];
      if !IsBlank(s) {
        var i :| 0 <= i < |s| && !IsSpace(s[i]);
        assert front[i] == s[i];
      }
    }
  }

  /** `String.prototype.trim`: a trimmed string, empty exactly when the input is blank. */
  function Trim(s: string): (r: string)
    ensures IsTrimmed(r) && |r| <= |s|
    ensures r == [] <==> IsBlank(s)
    ensures IsTrimmed(s) ==> r == s
  {
    var t := TrimStart(s);
    TrimStartSuffix(s);
    TrimEndPrefix(t);
    assert t != [] ==> !IsBlank(t);
    TrimEnd(t)
  }

  lemma TrimOfTrimmed(s: string)
    ensures Trim(Trim(s)) == Trim(s)
  {
  }

  // ---------------------------------------------------------------- case mapping

  function LowerChar(c: char): char
  {
    if IsUpper(c) then (c as int + 32) as char else c
  }

  function UpperChar(c: char): char
  {
    if IsLowerLetter(c) then (c as int - 32) as char else c
  }

  /** `toLowerCase` on ASCII letters: same length, no capitals left, other characters kept. */
  function Lower(s: string): (r: string)
    ensures |r| == |s| && NoUpper(r)
    ensures NoUpper(s) ==> r == s
  {
    seq(|s|, i requires 0 <= i < |s| => LowerChar(s[i]))
  }

  /** `toUpperCase` on ASCII letters. */
  function Upper(s: string): (r: string)
    ensures |r| == |s|
    ensures forall i :: 0 <= i < |s| ==> !IsLowerLetter(r[i])
    ensures forall i :: 0 <= i < |s| ==> !IsLowerLetter(s[i]) ==> r[i] == s[i]
  {
    seq(|s|, i requires 0 <= i < |s| => UpperChar(s[i]))
  }

  lemma LowerKeepsTrimmed(s: string)
    requires IsTrimmed(s)
    ensures IsTrimmed(Lower(s))
  {
    if s != [] {
      assert Lower(s)[0] == LowerChar(s[0]);
      assert Lower(s)[|s| - 1] == LowerChar(s[|s| - 1]);
    }
  }

  // ---------------------------------------------------------------- searching

  /** `s.includes(sub)`. */
  predicate Contains(s: string, sub: string)
  {
    exists k :: 0 <= k <= |s| && OccursAt(s, sub, k)
  }

  predicate OccursAt(s: string, sub: string, k: int)
  {
    0 <= k && k + |sub| <= |s| && s[k..k + |sub|] == sub
  }

  predicate ContainsChar(s: string, c: char)
  {
    exists i :: 0 <= i < |s| && s[i] == c
  }

  predicate StartsWith(s: string, p: string) { |p| <= |s| && s[..|p|] == p }
  predicate EndsWith(s: string, p: string) { |p| <= |s| && s[|s| - |p|..] == p }

  lemma EmptyContained(s: string)
    ensures Contains(s, "")
  {
    assert OccursAt(s, "", 0);
  }

  /** Lower-casing both sides keeps an occurrence: case-insensitive search finds what exact search finds. */
  lemma LowerContains(s: string, sub: string)
    requires Contains(s, sub)
    ensures Contains(Lower(s), Lower(sub))
  {
    var k :| 0 <= k <= |s| && OccursAt(s, sub, k);
    assert Lower(s)[k..k + |sub|] == Lower(sub) by {
      forall i | 0 <= i < |sub| ensures Lower(s)[k + i] == Lower(sub)[i] {
        assert s[k + i] == sub[i];
      }
    }
    assert OccursAt(Lower(s), Lower(sub), k);
  }

  // ---------------------------------------------------------------- filtering and replacing

  /** The characters of `s` that satisfy `keep`, in order (a `replace(/[^...]/g, "")`). */
  function Filter(s: string, keep: char -> bool): (r: string)
    ensures |r| <= |s|
    ensures forall i :: 0 <= i < |r| ==> keep(r[i])
    ensures (forall i :: 0 <= i < |s| ==> keep(s[i])) ==> r == s
  {
    if s == [] then []
    else (if keep(s[0]) then [s[0]] else []) + Filter(s[1..], keep)
  }

  /** Every occurrence of `c` replaced by `rep` (a `replace(/c/g, rep)`). */
  function ReplaceChar(s: string, c: char, rep: string): (r: string)
    ensures !ContainsChar(s, c) ==> r == s
    ensures |rep| == 1 ==> |r| == |s|
  {
    if s == [] then []
    else (if s[0] == c then rep else [s[0]]) + ReplaceChar(s[1..], c, rep)
  }

  /** `.filter(Boolean)` on strings: the non-empty entries, in order. */
  function NonEmpty(parts: seq<string>): (r: seq<string>)
    ensures |r| <= |parts|
    ensures forall i :: 0 <= i < |r| ==> r[i] != []
  {
    if parts == [] then []
    else (if parts[0] == [] then [] else [parts[0]]) + NonEmpty(parts[1..])
  }

  /** `.filter(Boolean)` keeps exactly the non-empty entries: nothing new, nothing non-empty lost. */
  lemma {:induction false} NonEmptyMembers(parts: seq<string>)
    ensures forall i :: 0 <= i < |NonEmpty(parts)| ==> NonEmpty(parts)[i] in parts
    ensures forall p :: p in parts && p != [] ==> p in NonEmpty(parts)
  {
    if parts != [] {
      NonEmptyMembers(parts[1..]);
      var head := if parts[0] == [] then [] else [parts[0]];
      assert NonEmpty(parts) == head + NonEmpty(parts[1..]);
      forall p | p in parts && p != [] ensures p in NonEmpty(parts) {
        if p != parts[0] {
          var k :| 0 <= k < |parts| && parts[k] == p;
          assert parts[1..][k - 1] == p;
        }
      }
    }
  }

  lemma {:induction false} NonEmptyOfNonEmpty(parts: seq<string>)
    requires forall i :: 0 <= i < |parts| ==> parts[i] != []
    ensures NonEmpty(parts) == parts
  {
    if parts != [] {
      NonEmptyOfNonEmpty(parts[1..]);
      assert [parts[0]] + parts[1..] == parts;
    }
  }

  // ---------------------------------------------------------------- join and split

  /** `Array.prototype.join(sep)`. */
  function Join(parts: seq<string>, sep: string): (r: string)
    ensures |parts| == 1 ==> r == parts[0]
  {
    if |parts| == 0 then []
    else if |parts| == 1 then parts[0]
    else parts[0] + sep + Join(parts[1..], sep)
  }

  /** Every joined part occurs in the joined text. */
  lemma {:induction false} JoinContainsParts(parts: seq<string>, sep: string, i: nat)
    requires i < |parts|
    ensures Contains(Join(parts, sep), parts[i])
  {
    var r := Join(parts, sep);
    if |parts| == 1 || i == 0 {
      assert OccursAt(r, parts[0], 0);
    } else {
      JoinContainsParts(parts[1..], sep, i - 1);
      var tail := Join(parts[1..], sep);
      var k :| 0 <= k <= |tail| && OccursAt(tail, parts[i], k);
      var off := |parts[0]| + |sep|;
      assert r == parts[0] + sep + tail;
      assert r[off + k..off + k + |parts[i]|] == tail[k..k + |parts[i]|];
      assert OccursAt(r, parts[i], off + k);
    }
  }

  /** `s.split(sep)` for a separator that is any one character of `seps`. */
  function Split(s: string, seps: set<char>): (parts: seq<string>)
    ensures |parts| >= 1
    ensures forall i, j :: 0 <= i < |parts| && 0 <= j < |parts[i]| ==> parts[i][j] !in seps
  {
    if s == [] then [[]]
    else
      var rest := Split(s[1..], seps);
      if s[0] in seps then [[]] + rest
      else [[s[0]] + rest[0]] + rest[1..]
  }

  lemma JoinCons(p: string, parts: seq<string>, sep: string)
    requires |parts| >= 1
    ensures Join([p] + parts, sep) == p + sep + Join(parts, sep)
  {
    assert ([p] + parts)[1..] == parts;
  }

  lemma {:induction false} JoinPrepend(c: char, parts: seq<string>, sep: string)
    requires |parts| >= 1
    ensures Join([[c] + parts[0]] + parts[1..], sep) == [c] + Join(parts, sep)
  {
    if |parts| > 1 {
      JoinCons([c] + parts[0], parts[1..], sep);
      JoinCons(parts[0], parts[1..], sep);
      assert [parts[0]] + parts[1..] == parts;
    }
  }

  /** Text without separators splits into itself alone. */
  lemma {:induction false} SplitNoSeparator(s: string, seps: set<char>)
    requires forall i :: 0 <= i < |s| ==> s[i] !in seps
    ensures Split(s, seps) == [s]
  {
    if s != [] {
      SplitNoSeparator(s[1..], seps);
      assert [s[0]] + s[1..] == s;
    }
  }

  /** A separator after separator-free text ends the first part there. */
  lemma {:induction false} SplitAtSeparator(a: string, c: char, b: string, seps: set<char>)
    requires forall i :: 0 <= i < |a| ==> a[i] !in seps
    requires c in seps
    ensures Split(a + [c] + b, seps) == [a] + Split(b, seps)
  {
    if a == [] {
      assert a + [c] + b == [c] + b;
      assert ([c] + b)[1..] == b;
    } else {
      SplitAtSeparator(a[1..], c, b, seps);
      var s := a + [c] + b;
      assert s[1..] == a[1..] + [c] + b;
      assert [a[0]] + a[1..] == a;
    }
  }

  /** Parts free of the separator character come back unchanged when joined and split again. */
  lemma {:induction false} JoinSplit(parts: seq<string>, c: char)
    requires |parts| >= 1
    requires forall i, j :: 0 <= i < |parts| && 0 <= j < |parts[i]| ==> parts[i][j] != c
    ensures Split(Join(parts, [c]), {c}) == parts
  {
    if |parts| == 1 {
      SplitNoSeparator(parts[0], {c});
    } else {
      JoinSplit(parts[1..], c);
      assert forall i :: 0 <= i < |parts[0]| ==> parts[0][i] !in {c};
      SplitAtSeparator(parts[0], c, Join(parts[1..], [c]), {c});
      assert [parts[0]] + parts[1..] == parts;
    }
  }

  /** Parts free of every separator come back unchanged when joined with one of them and split again. */
  lemma {:induction false} JoinSplitAny(parts: seq<string>, c: char, seps: set<char>)
    requires |parts| >= 1 && c in seps
    requires forall i, j :: 0 <= i < |parts| && 0 <= j < |parts[i]| ==> parts[i][j] !in seps
    ensures Split(Join(parts, [c]), seps) == parts
  {
    if |parts| == 1 {
      SplitNoSeparator(parts[0], seps);
    } else {
      JoinSplitAny(parts[1..], c, seps);
      assert forall i :: 0 <= i < |parts[0]| ==> parts[0][i] !in seps;
      SplitAtSeparator(parts[0], c, Join(parts[1..], [c]), seps);
      assert [parts[0]] + parts[1..] == parts;
    }
  }

  /** A join of non-empty parts begins with the first part's first character and ends with the last part's last. */
  lemma {:induction false} JoinEnds(parts: seq<string>, sep: string)
    requires |parts| >= 1 && forall i :: 0 <= i < |parts| ==> parts[i] != []
    ensures var r := Join(parts, sep);
      r != [] && r[0] == parts[0][0] && r[|r| - 1] == parts[|parts| - 1][|parts[|parts| - 1]| - 1]
  {
    if |parts| > 1 {
      JoinEnds(parts[1..], sep);
    }
  }

  /** The characters of `IsSpace`, as a set. */
  const SpaceChars: set<char> :=
    {' ', '\t', '\n', '\r', '\U{000B}', '\U{000C}', '\U{00A0}', '\U{1680}', '\U{2000}', '\U{2001}',
     '\U{2002}', '\U{2003}', '\U{2004}', '\U{2005}', '\U{2006}', '\U{2007}', '\U{2008}', '\U{2009}',
     '\U{200A}', '\U{2028}', '\U{2029}', '\U{202F}', '\U{205F}', '\U{3000}', '\U{FEFF}'}

  lemma SpaceCharsAreSpaces(c: char)
    ensures c in SpaceChars <==> IsSpace(c)
  {
  }

  /** Splitting on one character and joining with it gives the text back. */
  lemma {:induction false} SplitJoin(s: string, c: char)
    ensures Join(Split(s, {c}), [c]) == s
  {
    if s != [] {
      var rest := Split(s[1..], {c});
      SplitJoin(s[1..], c);
      if s[0] == c {
        JoinCons([], rest, [c]);
        assert s == [c] + s[1..];
      } else {
        JoinPrepend(s[0], rest, [c]);
        assert s == [s[0]] + s[1..];
      }
    }
  }

  // ---------------------------------------------------------------- integers as text

  function DigitChar(d: nat): (c: char)
    requires d < 10
    ensures IsDigit(c)
  {
    ('0' as int + d) as char
  }

  function DigitValue(c: char): nat
    requires IsDigit(c)
  {
    c as int - '0' as int
  }

  /** The decimal numeral of `n`, as `String(n)` prints it. */
  function NatToString(n: nat): (r: string)
    ensures r != [] && AllDigits(r)
    ensures |r| == 1 <==> n < 10
    decreases n
  {
    if n < 10 then [DigitChar(n)] else NatToString(n / 10) + [DigitChar(n % 10)]
  }

  /** `String(n)` for an integer: an optional minus sign, then the digits. */
  function IntToString(n: int): (r: string)
    ensures r != [] && NoUpper(r) && HasNoSpace(r)
    ensures n >= 0 ==> AllDigits(r)
  {
    if n < 0 then "-" + NatToString(-n) else NatToString(n)
  }

  /** The value of a string of decimal digits. */
  function DigitsValue(s: string): nat
    requires AllDigits(s)
  {
    if s == [] then 0 else 10 * DigitsValue(s[..|s| - 1]) + DigitValue(s[|s| - 1])
  }

  /** `10` to the power `k`. */
  function Pow10(k: nat): (r: nat)
    ensures r >= 1
  {
    if k == 0 then 1 else 10 * Pow10(k - 1)
  }

  predicate IsHexDigit(c: char) { IsDigit(c) || 'a' <= c <= 'f' || 'A' <= c <= 'F' }

  predicate AllHexDigits(s: string) { forall i :: 0 <= i < |s| ==> IsHexDigit(s[i]) }

  function HexDigitValue(c: char): (r: nat)
    requires IsHexDigit(c)
    ensures r < 16
    ensures IsDigit(c) ==> r == DigitValue(c)
  {
    if IsDigit(c) then DigitValue(c)
    else if 'a' <= c <= 'f' then (c - 'a') as nat + 10
    else (c - 'A') as nat + 10
  }

  /** Every character is a digit of base `radix` (at most 16). */
  predicate AllRadixDigits(s: string, radix: nat)
  {
    forall i :: 0 <= i < |s| ==> IsHexDigit(s[i]) && HexDigitValue(s[i]) < radix
  }

  /** The value of a run of digits in base `radix`, most significant first. */
  function RadixValue(s: string, radix: nat): nat
    requires AllRadixDigits(s, radix)
  {
    if s == [] then 0 else radix * RadixValue(s[..|s| - 1], radix) + HexDigitValue(s[|s| - 1])
  }

  /** The first position of `s` holding one of `cs`, or `|s|` when there is none. */
  function IndexOfAny(s: string, cs: set<char>): (i: nat)
    ensures i <= |s|
    ensures i < |s| ==> s[i] in cs
    ensures forall k :: 0 <= k < i ==> s[k] !in cs
  {
    if s == [] || s[0] in cs then 0 else 1 + IndexOfAny(s[1..], cs)
  }

  /** The exponent after an `e`: an optional sign, then one or more decimal digits. */
  function ExponentValue(x: string): (r: Option<int>)
    ensures r.Some? ==> x != []
  {
    var signed := x != [] && (x[0] == '+' || x[0] == '-');
    var u := if signed then x[1..] else x;
    if u == [] || !AllDigits(u) then None
    else if signed && x[0] == '-' then Some(-(DigitsValue(u) as int))
    else Some(DigitsValue(u))
  }

  /** `m · 10^scale` when that is a whole number; `None` when it is a fraction. */
  function Scaled(m: nat, scale: int): (r: Option<int>)
    ensures scale >= 0 ==> r == Some(m * Pow10(scale))
    ensures r.Some? ==> r.value >= 0
  {
    if scale >= 0 then Some(m * Pow10(scale))
    else if m % Pow10(-scale) == 0 then Some(m / Pow10(-scale))
    else None
  }

  /**
   * An unsigned decimal literal as `Number` reads it: digits, then optionally a `.`
   * and more digits (either side of the point may be empty, not both), then
   * optionally `e` or `E` and a signed exponent. The value when it is a whole
   * number; `None` for a fraction and for text that is no such literal.
   */
  function UnsignedDecimal(u: string): (r: Option<int>)
  {
    var e := IndexOfAny(u, {'e', 'E'});
    var mantissa := u[..e];
    var p := IndexOfAny(mantissa, {'.'});
    var whole := mantissa[..p];
    var fraction := if p < |mantissa| then mantissa[p + 1..] else [];
    var exponent := if e < |u| then ExponentValue(u[e + 1..]) else Some(0);
    if whole + fraction == [] || !AllDigits(whole) || !AllDigits(fraction) || exponent.None? then None
    else Scaled(DigitsValue(whole + fraction), exponent.value - |fraction|)
  }

  /** Digits of base `radix` after a `0x`, `0b` or `0o` prefix: at least one, and nothing else. */
  function RadixLiteral(d: string, radix: nat): (r: Option<int>)
    ensures r.Some? <==> d != [] && AllRadixDigits(d, radix)
  {
    if d != [] && AllRadixDigits(d, radix) then Some(RadixValue(d, radix)) else None
  }

  /** The base a `0x`, `0b` or `0o` prefix (either case) announces; 0 for any other text. */
  function PrefixRadix(t: string): nat
  {
    if |t| < 2 || t[0] != '0' then 0
    else if t[1] == 'x' || t[1] == 'X' then 16
    else if t[1] == 'b' || t[1] == 'B' then 2
    else if t[1] == 'o' || t[1] == 'O' then 8
    else 0
  }

  /**
   * `Number(t)` for trimmed, non-empty text, when its value is a whole number.
   * A `0x`, `0b` or `0o` prefix reads the rest in base 16, 2 or 8, with no sign
   * allowed; otherwise an optional sign precedes an unsigned decimal literal.
   * `None` stands for NaN, and also for the values a whole number cannot hold:
   * fractions such as "12.5", and "Infinity" with either sign.
   */
  function NumericLiteral(t: string): (r: Option<int>)
    ensures r.Some? ==> t != []
  {
    var radix := PrefixRadix(t);
    if radix != 0 then RadixLiteral(t[2..], radix)
    else if t == [] then None
    else if t[0] == '-' then (var v := UnsignedDecimal(t[1..]); if v.Some? then Some(-v.value) else None)
    else if t[0] == '+' then UnsignedDecimal(t[1..])
    else UnsignedDecimal(t)
  }

  lemma {:induction false} DigitsValueOfNat(n: nat)
    ensures DigitsValue(NatToString(n)) == n
    decreases n
  {
    if n >= 10 {
      DigitsValueOfNat(n / 10);
      var s := NatToString(n);
      assert s[..|s| - 1] == NatToString(n / 10);
    }
  }

  /** A run of decimal digits reads as its value. */
  lemma DecimalDigits(d: string)
    requires d != [] && AllDigits(d)
    ensures UnsignedDecimal(d) == Some(DigitsValue(d))
  {
    assert d[..|d|] == d;
    assert d[..|d|][..|d|] == d;
    assert d + [] == d;
  }

  lemma ParseDigits(d: string)
    requires d != [] && AllDigits(d)
    ensures NumericLiteral(d) == Some(DigitsValue(d))
  {
    assert PrefixRadix(d) == 0 && d[0] != '-' && d[0] != '+';
    DecimalDigits(d);
  }

  /** A minus sign before an unsigned decimal literal negates its value. */
  lemma NegatedDecimal(d: string, v: int)
    requires UnsignedDecimal(d) == Some(v)
    ensures NumericLiteral("-" + d) == Some(-v)
  {
    var t := "-" + d;
    assert t[0] == '-' && t[1..] == d;
    assert PrefixRadix(t) == 0;
  }

  /** Appending zeros multiplies the value of a digit run by a power of ten. */
  lemma {:induction false} DigitsAppendZeros(d: string, z: string)
    requires AllDigits(d) && forall i :: 0 <= i < |z| ==> z[i] == '0'
    ensures AllDigits(d + z) && DigitsValue(d + z) == DigitsValue(d) * Pow10(|z|)
    decreases |z|
  {
    if z == [] {
      assert d + z == d;
    } else {
      var front := z[..|z| - 1];
      DigitsAppendZeros(d, front);
      assert (d + z)[..|d + z| - 1] == d + front;
      calc {
        DigitsValue(d + z);
        10 * DigitsValue(d + front) + DigitValue('0');
        10 * (DigitsValue(d) * Pow10(|front|));
        DigitsValue(d) * (10 * Pow10(|front|));
      }
    }
  }

  /** Dividing `a · b` by `b` leaves `a` and no remainder. */
  lemma ExactQuotient(a: nat, b: nat)
    requires b >= 1
    ensures (a * b) % b == 0 && (a * b) / b == a
  {
    var q, r := (a * b) / b, (a * b) % b;
    assert a * b == b * q + r && 0 <= r < b;
    assert b * (a - q) == r;
    if a != q {
      assert false;
    }
  }

  /** A whole number written with a decimal point and zeros reads as that number: "100.00" is 100. */
  lemma PointZerosLiteral(d: string, z: string)
    requires d != [] && AllDigits(d) && forall i :: 0 <= i < |z| ==> z[i] == '0'
    ensures NumericLiteral(d + "." + z) == Some(DigitsValue(d))
  {
    var t := d + "." + z;
    assert t[|d|] == '.';
    assert forall i :: 0 <= i < |d| ==> t[i] == d[i] && IsDigit(t[i]);
    assert PrefixRadix(t) == 0 by {
      if |t| >= 2 { assert IsDigit(t[1]) || t[1] == '.'; }
    }
    assert t[0] != '-' && t[0] != '+';
    UnsignedLiteral(t);
    PointZerosDecimal(t, d, z);
  }

  /** The decimal reading of `d + "." + z` with `z` all zeros. */
  lemma PointZerosDecimal(t: string, d: string, z: string)
    requires d != [] && AllDigits(d) && forall i :: 0 <= i < |z| ==> z[i] == '0'
    requires t == d + "." + z
    ensures UnsignedDecimal(t) == Some(DigitsValue(d))
  {
    assert forall k :: 0 <= k < |t| ==> IsDigit(t[k]) || t[k] == '.';
    assert t[|d|] == '.';
    var e := IndexOfAny(t, {'e', 'E'});
    assert e == |t|;
    assert t[..e] == t;
    var p := IndexOfAny(t, {'.'});
    assert p == |d|;
    assert t[..p] == d && t[p + 1..] == z;
    DigitsAppendZeros(d, z);
    ExactQuotient(DigitsValue(d), Pow10(|z|));
  }

  /** Text with no radix prefix and no sign is read as an unsigned decimal literal. */
  lemma UnsignedLiteral(t: string)
    requires t != [] && PrefixRadix(t) == 0 && t[0] != '-' && t[0] != '+'
    ensures NumericLiteral(t) == UnsignedDecimal(t)
  {
  }

  /** Digits, an `e` and a natural exponent read as the digits' value times that power of ten: "1e3" is 1000. */
  lemma ExponentLiteral(d: string, k: nat)
    requires d != [] && AllDigits(d)
    ensures NumericLiteral(d + "e" + NatToString(k)) == Some(DigitsValue(d) * Pow10(k))
  {
    var x := NatToString(k);
    var t := d + "e" + x;
    assert t[|d|] == 'e';
    assert forall i :: 0 <= i < |d| ==> t[i] == d[i] && IsDigit(t[i]);
    assert PrefixRadix(t) == 0 by {
      if |t| >= 2 { assert IsDigit(t[1]) || t[1] == 'e'; }
    }
    assert t[0] != '-' && t[0] != '+';
    UnsignedLiteral(t);
    ExponentDecimal(t, d, x, k);
  }

  /** The decimal reading of `d + "e" + x`, where `x` is the numeral of `k`. */
  lemma ExponentDecimal(t: string, d: string, x: string, k: nat)
    requires d != [] && AllDigits(d) && x == NatToString(k) && t == d + "e" + x
    ensures UnsignedDecimal(t) == Some(DigitsValue(d) * Pow10(k))
  {
    assert t[|d|] == 'e';
    assert forall i :: 0 <= i < |d| ==> t[i] == d[i] && IsDigit(t[i]);
    var e := IndexOfAny(t, {'e', 'E'});
    assert e == |d|;
    assert t[..e] == d && t[e + 1..] == x;
    var p := IndexOfAny(d, {'.'});
    assert p == |d|;
    assert d[..p] == d && d + [] == d;
    DigitsValueOfNat(k);
    assert x[0] != '+' && x[0] != '-';
    assert ExponentValue(x) == Some(k);
  }

  /** After `0x`, `0b` or `0o` the rest is read in base 16, 2 or 8: "0x10" is 16, "0b1" is 1, "0o7" is 7. */
  lemma PrefixedLiteral(c: char, h: string, radix: nat)
    requires (c in {'x', 'X'} && radix == 16) || (c in {'b', 'B'} && radix == 2) || (c in {'o', 'O'} && radix == 8)
    requires h != [] && AllRadixDigits(h, radix)
    ensures NumericLiteral(['0', c] + h) == Some(RadixValue(h, radix))
  {
    var t := ['0', c] + h;
    assert t[0] == '0' && t[1] == c && t[2..] == h;
    assert PrefixRadix(t) == radix;
  }

  /** A digit run whose last digit is not 0 is no multiple of ten. */
  lemma LastDigitRemainder(f: string)
    requires f != [] && AllDigits(f)
    ensures DigitsValue(f) % 10 == DigitValue(f[|f| - 1])
  {
  }

  /** A multiple of `10 · q` is a multiple of ten. */
  lemma MultipleOfTen(m: nat, q: nat)
    requires q >= 1 && m % (10 * q) == 0
    ensures m % 10 == 0
  {
    var j := m / (10 * q);
    assert m == 10 * (q * j);
  }

  /** Digits after the point that end in a non-zero digit make a fraction, which `None` stands for: "12.5". */
  lemma FractionLiteral(d: string, f: string)
    requires d != [] && AllDigits(d) && f != [] && AllDigits(f) && f[|f| - 1] != '0'
    ensures NumericLiteral(d + "." + f) == None
  {
    var t := d + "." + f;
    assert forall k :: 0 <= k < |t| ==> IsDigit(t[k]) || t[k] == '.';
    assert t[|d|] == '.';
    assert PrefixRadix(t) == 0 by {
      if |t| >= 2 { assert IsDigit(t[1]) || t[1] == '.'; }
    }
    assert t[0] != '-' && t[0] != '+';
    var e := IndexOfAny(t, {'e', 'E'});
    assert e == |t|;
    assert t[..e] == t;
    var p := IndexOfAny(t, {'.'});
    assert p == |d|;
    assert t[..p] == d && t[p + 1..] == f;
    var m := DigitsValue(d + f);
    assert (d + f)[|d + f| - 1] == f[|f| - 1];
    LastDigitRemainder(d + f);
    assert Pow10(|f|) == 10 * Pow10(|f| - 1);
    if m % Pow10(|f|) == 0 {
      MultipleOfTen(m, Pow10(|f| - 1));
    }
  }

  /** Text starting with anything but a digit, a sign, a point or an exponent mark is NaN: "abc", "Infinity". */
  lemma WordIsNaN(t: string)
    requires t != [] && !IsDigit(t[0]) && t[0] !in {'.', 'e', 'E', '-', '+'}
    ensures NumericLiteral(t) == None
  {
    assert PrefixRadix(t) == 0;
    var e := IndexOfAny(t, {'e', 'E'});
    var mantissa := t[..e];
    assert e >= 1 && mantissa[0] == t[0];
    var p := IndexOfAny(mantissa, {'.'});
    assert p >= 1 && mantissa[..p][0] == t[0];
  }

  /** A sign before a `0x`, `0b` or `0o` prefix is NaN: "-0x10". */
  lemma SignedPrefixIsNaN(sign: char, c: char, h: string)
    requires sign in {'-', '+'} && c in {'x', 'X', 'b', 'B', 'o', 'O'}
    ensures NumericLiteral([sign, '0', c] + h) == None
  {
    var t := [sign, '0', c] + h;
    assert PrefixRadix(t) == 0;
    var u := t[1..];
    assert u[1] == c;
    var e := IndexOfAny(u, {'e', 'E'});
    var p := IndexOfAny(u[..e], {'.'});
    if e >= 2 && p >= 2 {
      assert u[..e][..p][1] == c;
    }
  }

  /** Printing an integer and reading it back gives the integer. */
  lemma IntToStringRoundTrip(n: int)
    ensures NumericLiteral(IntToString(n)) == Some(n)
  {
    if n < 0 {
      var d := NatToString(-n);
      DigitsValueOfNat(-n);
      DecimalDigits(d);
      NegatedDecimal(d, -n);
    } else {
      DigitsValueOfNat(n);
      ParseDigits(NatToString(n));
    }
  }

  /** `padStart(2, "0")`. */
  function Pad2(s: string): (r: string)
    ensures |r| == if |s| >= 2 then |s| else 2
    ensures |s| >= 2 ==> r == s
  {
    if |s| >= 2 then s else seq(2 - |s|, _ => '0') + s
  }

  /** Padding only prepends zeros: the text is a suffix of its padding, and what precedes it is all '0'. */
  lemma Pad2Suffix(s: string)
    ensures EndsWith(Pad2(s), s)
    ensures forall i :: 0 <= i < |Pad2(s)| - |s| ==> Pad2(s)[i] == '0'
  {
  }
}
