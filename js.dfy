/**
 * The JavaScript built-ins the components rely on, stated over Dafny values:
 * `undefined`/`null` as Option, the result of `parseInt` (a number or NaN),
 * `Number.prototype.toString` on integers, `String.prototype.indexOf`,
 * `includes`, `replace` with a string pattern (first occurrence only), and
 * `toLowerCase`/`toUpperCase` restricted to ASCII letters.
 */
module Js {

  /** A value that may be `undefined` (or `null`). */
  datatype Option<T> = None | Some(value: T) {
    /** `x ?? d` */
    function GetOr(d: T): T {
      match this
      case Some(v) => v
      case None => d
    }
  }

  /** A JavaScript number produced by `parseInt`: an integer, or NaN. */
  datatype JsInt = Int(v: int) | NaN

  // ---------------------------------------------------------------------
  // Searching in strings
  // ---------------------------------------------------------------------

  /** `t` occurs in `s` starting at position `j`. */
  predicate OccursAt(s: string, t: string, j: int) {
    0 <= j && j + |t| <= |s| && s[j..j + |t|] == t
  }

  lemma SliceOfTail(s: string, j: int, n: nat)
    requires 1 <= j && j + n <= |s|
    ensures s[j..j + n] == s[1..][j - 1..j - 1 + n]
  {
    var a, b := s[j..j + n], s[1..][j - 1..j - 1 + n];
    assert |a| == |b|;
    forall k | 0 <= k < |a| ensures a[k] == b[k] {
      assert a[k] == s[j + k];
    }
  }

  /** `s.indexOf(t)`: the first position where `t` occurs, or -1. */
  function IndexOf(s: string, t: string): (i: int)
    ensures -1 <= i <= |s|
    ensures i >= 0 ==> OccursAt(s, t, i)
    ensures forall j :: 0 <= j < (if i < 0 then |s| + 1 else i) ==> !OccursAt(s, t, j)
  {
    if t <= s then 0
    else if s == [] then -1
    else
      var k := IndexOf(s[1..], t);
      assert !OccursAt(s, t, 0);
      assert forall j | 1 <= j <= |s| :: OccursAt(s, t, j) == OccursAt(s[1..], t, j - 1) by {
        forall j | 1 <= j <= |s| ensures OccursAt(s, t, j) == OccursAt(s[1..], t, j - 1) {
          if j + |t| <= |s| {
            SliceOfTail(s, j, |t|);
          }
        }
      }
      if k < 0 then -1 else k + 1
  }

  /** `s.includes(t)` */
  predicate Includes(s: string, t: string) {
    IndexOf(s, t) >= 0
  }

  lemma IncludesEmpty(s: string)
    ensures Includes(s, "")
  {
    assert OccursAt(s, "", 0);
  }

  /** `s.includes(t)` holds exactly when `t` occurs somewhere in `s`. */
  lemma IncludesIff(s: string, t: string)
    ensures Includes(s, t) <==> exists j :: OccursAt(s, t, j)
  {
    if exists j :: OccursAt(s, t, j) {
      var j :| OccursAt(s, t, j);
      assert j <= |s|;
    }
  }

  /** `t` cannot occur in `s` when one of its characters is missing from `s`. */
  lemma NotIncludesChar(s: string, t: string, k: int)
    requires 0 <= k < |t|
    requires forall j :: 0 <= j < |s| ==> s[j] != t[k]
    ensures !Includes(s, t)
  {
    IncludesIff(s, t);
    forall j ensures !OccursAt(s, t, j) {
      if 0 <= j && j + |t| <= |s| {
        assert s[j..j + |t|][k] == s[j + k];
      }
    }
  }

  // ---------------------------------------------------------------------
  // String.prototype.replace with a string pattern
  // ---------------------------------------------------------------------

  /**
   * `s.replace(pat, rep)`: scans `s` from the left and replaces the first
   * occurrence of `pat` only.
   */
  function ReplaceFirst(s: string, pat: string, rep: string): string {
    if pat <= s then rep + s[|pat|..]
    else if s == [] then s
    else [s[0]] + ReplaceFirst(s[1..], pat, rep)
  }

  /** One step of the scan of `IndexOf` past a first character where `t` does not start. */
  lemma IndexOfStep(s: string, t: string)
    requires !(t <= s) && s != []
    ensures var k := IndexOf(s[1..], t);
            IndexOf(s, t) == if k < 0 then -1 else k + 1
  {
  }

  lemma ConsTail(s: string)
    requires s != []
    ensures [s[0]] + s[1..] == s
  {
  }

  lemma SpliceCons(c: char, t: string, k: int, m: int, rep: string)
    requires 0 <= k && 0 <= m && k + m <= |t|
    ensures [c] + (t[..k] + rep + t[k + m..]) == ([c] + t)[..k + 1] + rep + ([c] + t)[k + 1 + m..]
  {
    assert ([c] + t)[..k + 1] == [c] + t[..k];
    assert ([c] + t)[k + 1 + m..] == t[k + m..];
  }

  /**
   * The left-to-right scan of `ReplaceFirst` rewrites exactly the occurrence
   * that `indexOf` finds, and nothing at all when there is none.
   */
  lemma {:induction false} ReplaceFirstAtIndexOf(s: string, pat: string, rep: string)
    ensures IndexOf(s, pat) < 0 ==> ReplaceFirst(s, pat, rep) == s
    ensures IndexOf(s, pat) >= 0 ==>
              var i := IndexOf(s, pat);
              ReplaceFirst(s, pat, rep) == s[..i] + rep + s[i + |pat|..]
  {
    if !(pat <= s) && s != [] {
      var tail := s[1..];
      ReplaceFirstAtIndexOf(tail, pat, rep);
      IndexOfStep(s, pat);
      var k := IndexOf(tail, pat);
      assert ReplaceFirst(s, pat, rep) == [s[0]] + ReplaceFirst(tail, pat, rep);
      ConsTail(s);
      if k >= 0 {
        SpliceCons(s[0], tail, k, |pat|, rep);
      }
    }
  }

  /** Replacing a pattern the string starts with. */
  lemma ReplaceFirstPrefix(pat: string, s: string, rep: string)
    ensures ReplaceFirst(pat + s, pat, rep) == rep + s
  {
    assert pat <= pat + s;
    assert (pat + s)[|pat|..] == s;
  }

  /** Replacing a one-character pattern whose first occurrence is at `i` (`|s|` when absent). */
  lemma {:induction false} ReplaceFirstChar(s: string, c: char, rep: string, i: int)
    requires 0 <= i <= |s|
    requires forall j :: 0 <= j < i ==> s[j] != c
    requires i < |s| ==> s[i] == c
    ensures ReplaceFirst(s, [c], rep) == if i < |s| then s[..i] + rep + s[i + 1..] else s
  {
    if s != [] && i > 0 {
      ReplaceFirstChar(s[1..], c, rep, i - 1);
      assert [s[0]] + s[1..][..i - 1] == s[..i];
    }
  }

  /** A prefix free of the one-character pattern is copied unchanged. */
  lemma {:induction false} ReplaceFirstSkip(x: string, y: string, c: char, rep: string)
    requires forall j :: 0 <= j < |x| ==> x[j] != c
    ensures ReplaceFirst(x + y, [c], rep) == x + ReplaceFirst(y, [c], rep)
  {
    if x == [] {
      assert x + y == y;
    } else {
      assert (x + y)[0] == x[0];
      assert !([c] <= x + y);
      assert (x + y)[1..] == x[1..] + y;
      ReplaceFirstSkip(x[1..], y, c, rep);
      assert [x[0]] + (x[1..] + ReplaceFirst(y, [c], rep)) == x + ReplaceFirst(y, [c], rep);
    }
  }

  // ---------------------------------------------------------------------
  // ASCII case mapping
  // ---------------------------------------------------------------------

  function LowerChar(c: char): char {
    if 'A' <= c <= 'Z' then (c as int + 32) as char else c
  }

  function UpperChar(c: char): char {
    if 'a' <= c <= 'z' then (c as int - 32) as char else c
  }

  /** `s.toLowerCase()` on ASCII letters */
  function Lower(s: string): (r: string)
    ensures |r| == |s|
    ensures forall i :: 0 <= i < |s| ==> r[i] == LowerChar(s[i])
  {
    seq(|s|, i requires 0 <= i < |s| => LowerChar(s[i]))
  }

  lemma LowerIdempotent(s: string)
    ensures Lower(Lower(s)) == Lower(s)
  {
  }

  // ---------------------------------------------------------------------
  // Integers to and from decimal text
  // ---------------------------------------------------------------------

  predicate IsDigit(c: char) {
    '0' <= c <= '9'
  }

  function DigitChar(d: nat): char
    requires d < 10
  {
    ('0' as int + d) as char
  }

  function DigitValue(c: char): nat
    requires IsDigit(c)
  {
    c as int - '0' as int
  }

  /** Decimal digits of `n`, most significant first, without leading zeros. */
  function NatToString(n: nat): (r: string)
    ensures |r| >= 1
    ensures forall i :: 0 <= i < |r| ==> IsDigit(r[i])
  {
    if n < 10 then [DigitChar(n)] else NatToString(n / 10) + [DigitChar(n % 10)]
  }

  /** `n.toString()` for an integer `n`, always in plain decimal (no exponent form, no precision limit). */
  function IntToString(n: int): string {
    if n < 0 then "-" + NatToString(-n) else NatToString(n)
  }

  /** The value of a string of decimal digits. */
  function DigitsValue(d: string): nat
    requires forall i :: 0 <= i < |d| ==> IsDigit(d[i])
  {
    if d == [] then 0 else DigitsValue(d[..|d| - 1]) * 10 + DigitValue(d[|d| - 1])
  }

  /** The longest prefix of `s` made of decimal digits. */
  function DigitPrefix(s: string): (r: string)
    ensures r <= s
    ensures forall i :: 0 <= i < |r| ==> IsDigit(r[i])
    ensures |r| < |s| ==> !IsDigit(s[|r|])
  {
    if s != [] && IsDigit(s[0]) then [s[0]] + DigitPrefix(s[1..]) else []
  }

  /** The ASCII blanks `parseInt` skips; the Unicode space separators it also skips are not included. */
  predicate IsSpace(c: char) {
    c == ' ' || c == '\t' || c == '\n' || c == '\r' || c == '\U{000B}' || c == '\U{000C}'
  }

  function TrimStart(s: string): string {
    if s != [] && IsSpace(s[0]) then TrimStart(s[1..]) else s
  }

  /**
   * `parseInt(s)` in base 10: leading white space is skipped, an optional
   * sign is read, then the longest run of digits; NaN when there is none.
   */
  function ParseInt(s: string): (r: JsInt)
    ensures r == NaN <==> DigitPrefix(SignlessPart(TrimStart(s))) == []
  {
    var t := TrimStart(s);
    var negative := t != [] && t[0] == '-';
    var d := DigitPrefix(SignlessPart(t));
    var v: int := if d == [] then 0 else DigitsValue(d);
    if d == [] then NaN else Int(if negative then -v else v)
  }

  function SignlessPart(t: string): string {
    if t != [] && (t[0] == '-' || t[0] == '+') then t[1..] else t
  }

  lemma {:induction false} DigitsValueOfNatToString(n: nat)
    ensures DigitsValue(NatToString(n)) == n
  {
    if n >= 10 {
      var r := NatToString(n);
      assert r[..|r| - 1] == NatToString(n / 10);
      DigitsValueOfNatToString(n / 10);
    }
  }

  lemma {:induction false} DigitPrefixOfDigits(d: string)
    requires forall i :: 0 <= i < |d| ==> IsDigit(d[i])
    ensures DigitPrefix(d) == d
  {
    if d != [] {
      DigitPrefixOfDigits(d[1..]);
    }
  }

  /** `parseInt` of a non-empty run of decimal digits is their value. */
  lemma ParseIntDigits(d: string)
    requires |d| >= 1 && forall i :: 0 <= i < |d| ==> IsDigit(d[i])
    ensures ParseInt(d) == Int(DigitsValue(d))
  {
    DigitPrefixOfDigits(d);
    assert IsDigit(d[0]);
    assert TrimStart(d) == d;
    assert SignlessPart(d) == d;
  }

  lemma MinusTail(d: string)
    ensures ("-" + d)[0] == '-' && ("-" + d)[1..] == d
  {
  }

  /** `parseInt` of a minus sign followed by a non-empty run of digits is minus their value. */
  lemma ParseIntMinusDigits(d: string)
    requires |d| >= 1 && forall i :: 0 <= i < |d| ==> IsDigit(d[i])
    ensures ParseInt("-" + d) == Int(-(DigitsValue(d) as int))
  {
    var t := "-" + d;
    MinusTail(d);
    assert TrimStart(t) == t;
    assert SignlessPart(t) == d;
    DigitPrefixOfDigits(d);
  }

  /** `parseInt(n.toString()) == n` for every integer `n`. */
  lemma ParseIntOfIntToString(n: int)
    ensures ParseInt(IntToString(n)) == Int(n)
  {
    if n < 0 {
      DigitsValueOfNatToString(-n);
      ParseIntMinusDigits(NatToString(-n));
    } else {
      DigitsValueOfNatToString(n);
      ParseIntDigits(NatToString(n));
    }
  }

  /** `Number.prototype.toString` on what `parseInt` may return. */
  function JsIntToString(n: JsInt): string {
    match n
    case Int(v) => IntToString(v)
    case NaN => "NaN"
  }

  lemma ParseIntNaNText()
    ensures ParseInt("NaN") == NaN
  {
    assert TrimStart("NaN") == "NaN";
    assert SignlessPart("NaN") == "NaN";
    assert !IsDigit("NaN"[0]);
  }

  /** `parseInt(n.toString())` gives `n` back, NaN included. */
  lemma ParseIntOfJsIntToString(n: JsInt)
    ensures ParseInt(JsIntToString(n)) == n
  {
    match n
    case Int(v) => ParseIntOfIntToString(v);
    case NaN => ParseIntNaNText();
  }
}
