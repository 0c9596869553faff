/** The parts of JavaScript's string and number semantics that the dashboard code relies on:
    whitespace and line terminators, case-insensitive comparison of ASCII letters, substring
    search, `split`/`join`/`trim`, `parseInt`, `Array.prototype.slice` and the decimal
    rendering of integers. */
module Js {
  import opened Outcomes

  // ---------------------------------------------------------------------------------------
  // Characters

  /** Line terminators: what the regular-expression `.` does not match. */
  predicate IsLineTerminator(c: char) {
    c == '\n' || c == '\r' || c == '\U{2028}' || c == '\U{2029}'
  }

  /** White space as `\s` and `String.prototype.trim` understand it (WhiteSpace and
      LineTerminator of ECMA-262). */
  predicate IsWhite(c: char) {
    c == ' ' || c == '\t' || c == '\U{000B}' || c == '\U{000C}' || c == '\U{00A0}' || c == '\U{FEFF}'
    || c == '\U{1680}' || ('\U{2000}' <= c <= '\U{200A}') || c == '\U{202F}' || c == '\U{205F}'
    || c == '\U{3000}' || IsLineTerminator(c)
  }

  predicate IsDigit(c: char) { '0' <= c <= '9' }

  function DigitValue(c: char): (d: nat)
    requires IsDigit(c)
    ensures d < 10
  {
    c as int - '0' as int
  }

  predicate IsHexDigit(c: char) { IsDigit(c) || ('a' <= c <= 'f') || ('A' <= c <= 'F') }

  function HexDigitValue(c: char): (d: nat)
    requires IsHexDigit(c)
    ensures d < 16
  {
    if IsDigit(c) then DigitValue(c)
    else if 'a' <= c <= 'f' then c as int - 'a' as int + 10
    else c as int - 'A' as int + 10
  }

  /** Lower-casing of ASCII letters; every other character is its own lower case here. */
  function Lower(c: char): char {
    if 'A' <= c <= 'Z' then (c as int + 32) as char else c
  }

  function LowerStr(s: string): (r: string)
    ensures |r| == |s|
    ensures forall i :: 0 <= i < |s| ==> r[i] == Lower(s[i])
  {
    seq(|s|, i requires 0 <= i < |s| => Lower(s[i]))
  }

  // ---------------------------------------------------------------------------------------
  // Substrings

  /** `w` occurs in `s` at position `p`. */
  predicate OccursAt(s: string, w: string, p: int) {
    0 <= p && p + |w| <= |s| && s[p..p + |w|] == w
  }

  /** `w` occurs at position `p` of `s` when ASCII letters are compared without case, as a
      regular expression with the `i` flag compares them with an ASCII pattern. */
  predicate OccursAtIgnoreCase(s: string, w: string, p: int) {
    0 <= p && p + |w| <= |s| && forall k :: 0 <= k < |w| ==> Lower(s[p + k]) == Lower(w[k])
  }

  /** `s.includes(w)`, by a left-to-right scan from position `from`. */
  function IncludesFrom(s: string, w: string, from: nat): (b: bool)
    requires from <= |s|
    ensures b <==> exists p :: from <= p <= |s| - |w| && OccursAt(s, w, p)
    decreases |s| - from
  {
    if from + |w| > |s| then false
    else if s[from..from + |w|] == w then assert OccursAt(s, w, from); true
    else IncludesFrom(s, w, from + 1)
  }

  /** `s.includes(w)`. */
  function Includes(s: string, w: string): (b: bool)
    ensures b <==> exists p :: 0 <= p <= |s| - |w| && OccursAt(s, w, p)
  {
    IncludesFrom(s, w, 0)
  }

  /** `s.startsWith(w)`. */
  function StartsWith(s: string, w: string): (b: bool)
    ensures b <==> OccursAt(s, w, 0)
  {
    |w| <= |s| && s[..|w|] == w
  }

  /** `s.toLowerCase().includes(w.toLowerCase())`. */
  function IncludesIgnoreCase(s: string, w: string): bool {
    Includes(LowerStr(s), LowerStr(w))
  }

  lemma {:induction false} IncludesEmpty(s: string)
    ensures Includes(s, "")
  {
    assert OccursAt(s, "", 0);
  }

  lemma {:induction false} IncludesWithin(s: string, w: string, p: nat)
    requires OccursAt(s, w, p)
    ensures Includes(s, w)
  {
  }

  // ---------------------------------------------------------------------------------------
  // trim

  /** Removes leading white space. */
  function TrimStart(s: string): (r: string)
    ensures |r| <= |s| && r == s[|s| - |r|..]
    ensures forall i :: 0 <= i < |s| - |r| ==> IsWhite(s[i])
    ensures |r| > 0 ==> !IsWhite(r[0])
  {
    if |s| > 0 && IsWhite(s[0]) then TrimStart(s[1..]) else s
  }

  /** The first index at or after `i` that does not hold white space (`|s|` if none). */
  function WhiteEnd(s: string, i: nat): (n: nat)
    requires i <= |s|
    ensures i <= n <= |s|
    ensures forall k :: i <= k < n ==> IsWhite(s[k])
    ensures n < |s| ==> !IsWhite(s[n])
    decreases |s| - i
  {
    if i < |s| && IsWhite(s[i]) then WhiteEnd(s, i + 1) else i
  }

  /** Where the run of white space that ends at `j` begins, looking no further back than `lo`. */
  function WhiteStart(s: string, lo: nat, j: nat): (m: nat)
    requires lo <= j <= |s|
    ensures lo <= m <= j
    ensures forall k :: m <= k < j ==> IsWhite(s[k])
    ensures m > lo ==> !IsWhite(s[m - 1])
  {
    if j > lo && IsWhite(s[j - 1]) then WhiteStart(s, lo, j - 1) else j
  }

  /** Every character of `s` before index `a` is white space. */
  predicate WhiteBefore(s: string, a: nat) {
    forall i :: 0 <= i < a && i < |s| ==> IsWhite(s[i])
  }

  /** Every character of `s` from index `b` on is white space. */
  predicate WhiteFrom(s: string, b: nat) {
    forall i :: b <= i < |s| ==> IsWhite(s[i])
  }

  /** `s.trim()`: the infix of `s` left when white space at both ends is removed. */
  function Trim(s: string): (r: string)
    ensures exists a, b :: 0 <= a <= b <= |s| && r == s[a..b] && WhiteBefore(s, a) && WhiteFrom(s, b)
    ensures |r| > 0 ==> !IsWhite(r[0]) && !IsWhite(r[|r| - 1])
  {
    var a := WhiteEnd(s, 0);
    var b := WhiteStart(s, a, |s|);
    assert WhiteBefore(s, a) && WhiteFrom(s, b);
    s[a..b]
  }

  lemma {:induction false} TrimOfTrimmed(s: string)
    requires |s| == 0 || (!IsWhite(s[0]) && !IsWhite(s[|s| - 1]))
    ensures Trim(s) == s
  {
  }

  /** Lower-casing twice is lower-casing once. */
  lemma {:induction false} LowerStrIdempotent(s: string)
    ensures LowerStr(LowerStr(s)) == LowerStr(s)
  {
    assert forall i :: 0 <= i < |s| ==> Lower(Lower(s[i])) == Lower(s[i]);
  }

  lemma {:induction false} TrimIdempotent(s: string)
    ensures Trim(Trim(s)) == Trim(s)
  {
    TrimOfTrimmed(Trim(s));
  }

  // ---------------------------------------------------------------------------------------
  // split and join on a one-character separator

  function CountChar(s: string, c: char): (n: nat)
    ensures n <= |s|
  {
    if |s| == 0 then 0 else CountChar(s[..|s| - 1], c) + (if s[|s| - 1] == c then 1 else 0)
  }

  /** The first index of `c` in `s`. */
  function IndexOfChar(s: string, c: char): (i: nat)
    requires c in s
    ensures i < |s| && s[i] == c && c !in s[..i]
  {
    if s[0] == c then 0 else IndexOfChar(s[1..], c) + 1
  }

  /** `s.split(sep)` for a one-character separator: the pieces between separators, empty
      pieces included. */
  function Split(s: string, sep: char): (r: seq<string>)
    ensures |r| >= 1
    ensures forall k :: 0 <= k < |r| ==> sep !in r[k]
    decreases |s|
  {
    if sep !in s then [s]
    else
      var i := IndexOfChar(s, sep);
      [s[..i]] + Split(s[i + 1..], sep)
  }

  /** `parts.join(sep)`. */
  function Join(parts: seq<string>, sep: char): string {
    if |parts| == 0 then ""
    else if |parts| == 1 then parts[0]
    else parts[0] + [sep] + Join(parts[1..], sep)
  }

  lemma {:induction false} CountCharAppend(a: string, b: string, c: char)
    ensures CountChar(a + b, c) == CountChar(a, c) + CountChar(b, c)
    decreases |b|
  {
    if |b| == 0 {
      assert a + b == a;
    } else {
      assert (a + b)[..|a + b| - 1] == a + b[..|b| - 1];
      CountCharAppend(a, b[..|b| - 1], c);
    }
  }

  lemma {:induction false} CountCharAbsent(s: string, c: char)
    requires c !in s
    ensures CountChar(s, c) == 0
    decreases |s|
  {
    if |s| > 0 {
      assert c !in s[..|s| - 1];
      CountCharAbsent(s[..|s| - 1], c);
    }
  }

  /** `s.split(c)` has one more piece than `s` has separators. */
  lemma {:induction false} SplitCount(s: string, c: char)
    ensures |Split(s, c)| == CountChar(s, c) + 1
    decreases |s|
  {
    if c !in s {
      CountCharAbsent(s, c);
    } else {
      var i := IndexOfChar(s, c);
      assert s == s[..i] + ([c] + s[i + 1..]);
      CountCharAppend(s[..i], [c] + s[i + 1..], c);
      CountCharAppend([c], s[i + 1..], c);
      assert CountChar([c], c) == 1 by { assert [c][..0] == []; }
      CountCharAbsent(s[..i], c);
      SplitCount(s[i + 1..], c);
    }
  }

  /** Joining the pieces of a split with the same separator gives back the string. */
  lemma {:induction false} JoinSplit(s: string, c: char)
    ensures Join(Split(s, c), c) == s
    decreases |s|
  {
    if c in s {
      var i := IndexOfChar(s, c);
      var rest := Split(s[i + 1..], c);
      assert Split(s, c) == [s[..i]] + rest;
      JoinCons(s[..i], rest, c);
      JoinSplit(s[i + 1..], c);
      assert s == s[..i] + [c] + s[i + 1..];
    }
  }

  /** Joining a first piece before at least one more puts the separator between them. */
  lemma {:induction false} JoinCons(first: string, rest: seq<string>, c: char)
    requires |rest| >= 1
    ensures Join([first] + rest, c) == first + [c] + Join(rest, c)
  {
    assert ([first] + rest)[1..] == rest;
  }

  // ---------------------------------------------------------------------------------------
  // Decimal rendering of integers (`String(n)`, template literals)

  function DigitChar(d: nat): (c: char)
    requires d < 10
    ensures IsDigit(c) && DigitValue(c) == d
  {
    ('0' as int + d) as char
  }

  function NatToString(n: nat): (s: string)
    ensures |s| >= 1
    ensures forall i :: 0 <= i < |s| ==> IsDigit(s[i])
  {
    if n < 10 then [DigitChar(n)] else NatToString(n / 10) + [DigitChar(n % 10)]
  }

  function IntToString(i: int): (s: string)
    ensures |s| >= 1
  {
    if i < 0 then "-" + NatToString(-i) else NatToString(i)
  }

  // ---------------------------------------------------------------------------------------
  // parseInt (no radix argument)

  /** The longest prefix of `s` whose characters satisfy the digit class. */
  function DigitPrefix(s: string): (r: string)
    ensures |r| <= |s| && r == s[..|r|]
    ensures forall i :: 0 <= i < |r| ==> IsDigit(r[i])
    ensures |r| < |s| ==> !IsDigit(s[|r|])
  {
    if |s| > 0 && IsDigit(s[0]) then [s[0]] + DigitPrefix(s[1..]) else ""
  }

  function HexPrefix(s: string): (r: string)
    ensures |r| <= |s| && r == s[..|r|]
    ensures forall i :: 0 <= i < |r| ==> IsHexDigit(r[i])
    ensures |r| < |s| ==> !IsHexDigit(s[|r|])
  {
    if |s| > 0 && IsHexDigit(s[0]) then [s[0]] + HexPrefix(s[1..]) else ""
  }

  /** The value of a string of decimal digits, most significant first. */
  function DecimalValue(ds: string): nat
    requires forall i :: 0 <= i < |ds| ==> IsDigit(ds[i])
  {
    if |ds| == 0 then 0 else DecimalValue(ds[..|ds| - 1]) * 10 + DigitValue(ds[|ds| - 1])
  }

  function HexValue(ds: string): nat
    requires forall i :: 0 <= i < |ds| ==> IsHexDigit(ds[i])
  {
    if |ds| == 0 then 0 else HexValue(ds[..|ds| - 1]) * 16 + HexDigitValue(ds[|ds| - 1])
  }

  /** The digits after the sign: a `0x`/`0X` prefix selects base 16, otherwise base 10; the
      value is that of the longest run of digits, and `None` when there is none. */
  function ParseUnsigned(u: string): Option<nat> {
    if |u| >= 2 && u[0] == '0' && (u[1] == 'x' || u[1] == 'X') then
      var h := HexPrefix(u[2..]);
      if |h| == 0 then None else Some(HexValue(h))
    else
      var d := DigitPrefix(u);
      if |d| == 0 then None else Some(DecimalValue(d))
  }

  /** `parseInt(s)`: leading white space is skipped and an optional sign is read before the
      digits. `None` is `NaN`. */
  function ParseInt(s: string): Option<int> {
    var t := TrimStart(s);
    if |t| > 0 && t[0] == '-' then
      match ParseUnsigned(t[1..])
      case Some(n) => Some(-(n as int))
      case None => None
    else if |t| > 0 && t[0] == '+' then
      match ParseUnsigned(t[1..])
      case Some(n) => Some(n as int)
      case None => None
    else
      match ParseUnsigned(t)
      case Some(n) => Some(n as int)
      case None => None
  }

  lemma {:induction false} DigitPrefixOfDigits(s: string)
    requires forall i :: 0 <= i < |s| ==> IsDigit(s[i])
    ensures DigitPrefix(s) == s
    decreases |s|
  {
    if |s| > 0 {
      DigitPrefixOfDigits(s[1..]);
    }
  }

  lemma {:induction false} DecimalValueOfNatToString(n: nat)
    ensures DecimalValue(NatToString(n)) == n
  {
    if n >= 10 {
      var s := NatToString(n);
      assert s[..|s| - 1] == NatToString(n / 10);
      DecimalValueOfNatToString(n / 10);
    }
  }

  lemma {:induction false} ParseUnsignedOfDigits(u: string)
    requires |u| >= 1 && forall i :: 0 <= i < |u| ==> IsDigit(u[i])
    ensures ParseUnsigned(u) == Some(DecimalValue(u))
  {
    DigitPrefixOfDigits(u);
    if |u| >= 2 { assert IsDigit(u[1]); }
  }

  lemma {:induction false} TrimStartNoWhite(s: string)
    requires |s| > 0 && !IsWhite(s[0])
    ensures TrimStart(s) == s
  {
  }

  /** `parseInt` of a run of decimal digits is its decimal value. */
  lemma {:induction false} ParseIntOfDigits(u: string)
    requires |u| >= 1 && forall i :: 0 <= i < |u| ==> IsDigit(u[i])
    ensures ParseInt(u) == Some(DecimalValue(u) as int)
  {
    assert IsDigit(u[0]);
    TrimStartNoWhite(u);
    ParseUnsignedOfDigits(u);
  }

  /** `parseInt(String(n)) == n` for every integer `n`. */
  lemma {:induction false} ParseIntOfIntToString(i: int)
    ensures ParseInt(IntToString(i)) == Some(i)
  {
    if i < 0 {
      var u := NatToString(-i);
      DecimalValueOfNatToString(-i);
      ParseUnsignedOfDigits(u);
      TrimStartNoWhite("-" + u);
      assert ("-" + u)[1..] == u;
    } else {
      var u := NatToString(i);
      DecimalValueOfNatToString(i);
      ParseUnsignedOfDigits(u);
      assert IsDigit(u[0]);
      TrimStartNoWhite(u);
    }
  }

  /** The digit run of a string stops at the first character that is not a digit. */
  lemma {:induction false} DigitPrefixStops(u: string, rest: string)
    requires forall i :: 0 <= i < |u| ==> IsDigit(u[i])
    requires |rest| > 0 && !IsDigit(rest[0])
    ensures DigitPrefix(u + rest) == u
    decreases |u|
  {
    if |u| > 0 {
      assert (u + rest)[1..] == u[1..] + rest;
      DigitPrefixStops(u[1..], rest);
    } else {
      assert u + rest == rest;
    }
  }

  /** The unsigned digits of a fraction's text are its whole part. */
  lemma {:induction false} ParseUnsignedOfFraction(t: string, n: nat, rest: string)
    requires |rest| > 0 && rest[0] == '.' && t == NatToString(n) + rest
    ensures ParseUnsigned(t) == Some(n)
  {
    var u := NatToString(n);
    DecimalValueOfNatToString(n);
    DigitPrefixStops(u, rest);
    if |u| >= 2 { assert IsDigit(u[1]); } else { assert (u + rest)[1] == '.'; }
  }

  /** `parseInt` of unsigned digits that start the text. */
  lemma {:induction false} ParseIntUnsigned(s: string, n: nat)
    requires |s| > 0 && IsDigit(s[0]) && ParseUnsigned(s) == Some(n)
    ensures ParseInt(s) == Some(n as int)
  {
    TrimStartNoWhite(s);
  }

  /** `parseInt` of a minus sign followed by unsigned digits. */
  lemma {:induction false} ParseIntNegated(s: string, n: nat)
    requires |s| > 0 && s[0] == '-' && ParseUnsigned(s[1..]) == Some(n)
    ensures ParseInt(s) == Some(-(n as int))
  {
    TrimStartNoWhite(s);
  }

  /** The text of a negative integer followed by more text is a minus sign, then the
      digits of its magnitude, then that text. */
  lemma {:induction false} NegativeTextSplits(i: int, rest: string)
    requires i < 0
    ensures |IntToString(i) + rest| > 0 && (IntToString(i) + rest)[0] == '-'
    ensures (IntToString(i) + rest)[1..] == NatToString(-i) + rest
  {
    assert IntToString(i) + rest == "-" + (NatToString(-i) + rest);
  }

  /** `parseInt` of a decimal fraction, written as an integer's text followed by `.` and
      anything, is that integer: the digits stop at the point. */
  lemma {:induction false} ParseIntOfFraction(i: int, rest: string)
    requires |rest| > 0 && rest[0] == '.'
    ensures ParseInt(IntToString(i) + rest) == Some(i)
  {
    if i < 0 {
      ParseIntOfNegativeFraction(i, rest);
    } else {
      ParseIntOfNonNegativeFraction(i, rest);
    }
  }

  /** The negative case: the minus sign, then the magnitude's digits up to the point. */
  lemma {:induction false} ParseIntOfNegativeFraction(i: int, rest: string)
    requires i < 0 && |rest| > 0 && rest[0] == '.'
    ensures ParseInt(IntToString(i) + rest) == Some(i)
  {
    NegativeFractionDigits(i, rest);
    ParseIntNegated(IntToString(i) + rest, -i);
  }

  /** After the minus sign of a negative fraction's text come the digits of its magnitude. */
  lemma {:induction false} NegativeFractionDigits(i: int, rest: string)
    requires i < 0 && |rest| > 0 && rest[0] == '.'
    ensures |IntToString(i) + rest| > 0 && (IntToString(i) + rest)[0] == '-'
    ensures ParseUnsigned((IntToString(i) + rest)[1..]) == Some(-i)
  {
    NegativeTextSplits(i, rest);
    ParseUnsignedOfFraction((IntToString(i) + rest)[1..], -i, rest);
  }

  /** The non-negative case: the digits up to the point. */
  lemma {:induction false} ParseIntOfNonNegativeFraction(i: int, rest: string)
    requires i >= 0 && |rest| > 0 && rest[0] == '.'
    ensures ParseInt(IntToString(i) + rest) == Some(i)
  {
    ParseUnsignedOfFraction(NatToString(i) + rest, i, rest);
    assert IsDigit((NatToString(i) + rest)[0]);
    ParseIntUnsigned(IntToString(i) + rest, i);
  }

  // ---------------------------------------------------------------------------------------
  // Array.prototype.slice / String.prototype.slice

  /** A relative index as `slice` resolves it: negative counts from the end, then clamped. */
  function SliceIndex(i: int, len: nat): (k: nat)
    ensures k <= len
    ensures 0 <= i <= len ==> k == i
  {
    if i < 0 then (if len + i < 0 then 0 else len + i) else if i > len then len else i
  }

  /** `s.slice(start, end)`. */
  function Slice<T>(s: seq<T>, start: int, end: int): (r: seq<T>)
    ensures |r| <= |s|
  {
    var a := SliceIndex(start, |s|);
    var b := SliceIndex(end, |s|);
    if a < b then s[a..b] else []
  }

  /** `s.slice(0, n)` for `n >= 0`: the first `n` elements, or all of them. */
  lemma {:induction false} SliceFromStart<T>(s: seq<T>, n: nat)
    ensures Slice(s, 0, n) == if n <= |s| then s[..n] else s
  {
  }

  /** `s.slice(-n)` for `n > 0`: the last `n` elements, or all of them. */
  lemma {:induction false} SliceLast<T>(s: seq<T>, n: nat)
    requires n > 0
    ensures Slice(s, -(n as int), |s|) == if n <= |s| then s[|s| - n..] else s
  {
  }
}
