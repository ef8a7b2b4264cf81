/** The pieces of JavaScript's runtime string handling that the client relies on:
    the decimal rendering of an integer (`String(n)`, `${n}`) and
    `Array.prototype.join(',')`, each with the inverse that shows it loses nothing. */
module JsText {

  predicate IsDigit(c: char) {
    '0' <= c <= '9'
  }

  function DigitChar(d: nat): (c: char)
    requires d < 10
    ensures IsDigit(c) && c as int - '0' as int == d
  {
    ('0' as int + d) as char
  }

  /** Decimal digits of a natural number, most significant first, no leading zeros. */
  function NatToString(n: nat): (s: string)
    ensures |s| >= 1
    ensures forall i :: 0 <= i < |s| ==> IsDigit(s[i])
    decreases n
  {
    if n < 10 then [DigitChar(n)] else NatToString(n / 10) + [DigitChar(n % 10)]
  }

  /** An optional minus sign followed by decimal digits. */
  predicate IsNumeral(s: string) {
    && |s| >= 1
    && (IsDigit(s[0]) || s[0] == '-')
    && forall i :: 1 <= i < |s| ==> IsDigit(s[i])
  }

  /** `String(n)` for an integer-valued JavaScript number. */
  function IntToString(n: int): (s: string)
    ensures IsNumeral(s)
    ensures n >= 0 <==> IsDigit(s[0])
  {
    if n < 0 then "-" + NatToString(-n) else NatToString(n)
  }

  function DigitOf(c: char): (d: nat)
    requires IsDigit(c)
    ensures d < 10
  {
    c as int - '0' as int
  }

  /** Reads a string of decimal digits back as a number. */
  function DigitsValue(s: string): nat
    requires forall i :: 0 <= i < |s| ==> IsDigit(s[i])
  {
    if s == [] then 0 else DigitsValue(s[..|s| - 1]) * 10 + DigitOf(s[|s| - 1])
  }

  /** Reads an optional minus sign followed by decimal digits. */
  function ParseInt(s: string): int
    requires IsNumeral(s)
  {
    if s[0] == '-' then 0 - DigitsValue(s[1..]) as int else DigitsValue(s)
  }

  lemma {:induction false} NatToStringRoundTrip(n: nat)
    ensures DigitsValue(NatToString(n)) == n
    decreases n
  {
    if n >= 10 {
      var s := NatToString(n);
      NatToStringRoundTrip(n / 10);
      assert s[..|s| - 1] == NatToString(n / 10);
    }
  }

  /** `String(n)` is decoded back to `n`: the rendering is injective. */
  lemma IntToStringRoundTrip(n: int)
    ensures ParseInt(IntToString(n)) == n
  {
    if n < 0 {
      NatToStringRoundTrip(-n);
      assert IntToString(n)[1..] == NatToString(-n);
    } else {
      NatToStringRoundTrip(n);
    }
  }

  lemma IntToStringInjective(m: int, n: int)
    requires IntToString(m) == IntToString(n)
    ensures m == n
  {
    IntToStringRoundTrip(m);
    IntToStringRoundTrip(n);
  }

  /** `s.startsWith(p)`. */
  predicate StartsWith(s: string, p: string) {
    |p| <= |s| && s[..|p|] == p
  }

  predicate OccursAt(s: string, sub: string, i: nat) {
    i + |sub| <= |s| && s[i..i + |sub|] == sub
  }

  /** `s.includes(sub)`. */
  predicate Contains(s: string, sub: string) {
    exists i: nat :: i <= |s| && OccursAt(s, sub, i)
  }

  lemma ContainsAfterPrefix(p: string, s: string, sub: string)
    requires Contains(s, sub)
    ensures Contains(p + s, sub)
  {
    var i: nat :| i <= |s| && OccursAt(s, sub, i);
    assert i + |sub| <= |s|;
    assert (p + s)[|p| + i..|p| + i + |sub|] == s[i..i + |sub|];
    assert OccursAt(p + s, sub, |p| + i);
  }

  /** A numeral followed by a separator that starts with a character no numeral
      holds can be cut out again: the split point is found, not guessed. */
  lemma NumeralSplit(p: string, s1: string, s2: string, t: string, r1: string, r2: string)
    requires IsNumeral(s1) && IsNumeral(s2)
    requires |t| >= 1 && !IsDigit(t[0]) && t[0] != '-'
    requires p + s1 + t + r1 == p + s2 + t + r2
    ensures s1 == s2 && r1 == r2
  {
    var m := p + s1 + t + r1;
    var n := p + s2 + t + r2;
    assert m[|p| + |s1|] == t[0];
    assert n[|p| + |s2|] == t[0];
    assert |s1| == |s2|;
    assert m[|p|..|p| + |s1|] == s1;
    assert n[|p|..|p| + |s2|] == s2;
    assert r1 == m[|p| + |s1| + |t|..] == r2;
  }

  /** `xs.join(',')`. */
  function Join(xs: seq<string>): (s: string)
    ensures |xs| == 1 ==> s == xs[0]
  {
    if |xs| == 0 then "" else if |xs| == 1 then xs[0] else xs[0] + "," + Join(xs[1..])
  }

  /** `s.split(',')`: the pieces between commas, always at least one. */
  function Split(s: string): (r: seq<string>)
    ensures |r| >= 1
  {
    if |s| == 0 then [""]
    else
      var rest := Split(s[1..]);
      if s[0] == ',' then [""] + rest else [[s[0]] + rest[0]] + rest[1..]
  }

  predicate NoComma(s: string) {
    forall i :: 0 <= i < |s| ==> s[i] != ','
  }

  lemma {:induction false} SplitCommaFree(a: string, b: string)
    requires NoComma(a)
    ensures Split(a + b) == [a + Split(b)[0]] + Split(b)[1..]
    decreases |a|
  {
    if |a| > 0 {
      assert (a + b)[1..] == a[1..] + b;
      SplitCommaFree(a[1..], b);
      assert [a[0]] + (a[1..] + Split(b)[0]) == a + Split(b)[0];
    } else {
      assert a + b == b;
      assert a + Split(b)[0] == Split(b)[0];
      assert Split(b) == [Split(b)[0]] + Split(b)[1..];
    }
  }

  /** Splitting the join of comma-free pieces gives the pieces back. */
  lemma {:induction false} SplitJoin(xs: seq<string>)
    requires |xs| >= 1
    requires forall i :: 0 <= i < |xs| ==> NoComma(xs[i])
    ensures Split(Join(xs)) == xs
    decreases |xs|
  {
    if |xs| == 1 {
      SplitCommaFree(xs[0], "");
      assert xs[0] + "" == xs[0];
    } else {
      var tail := Join(xs[1..]);
      SplitJoin(xs[1..]);
      assert Join(xs) == xs[0] + ("," + tail);
      SplitCommaFree(xs[0], "," + tail);
      assert ("," + tail)[1..] == tail;
      assert Split("," + tail) == [""] + xs[1..];
      assert xs[0] + "" == xs[0];
      assert xs == [xs[0]] + xs[1..];
    }
  }
}
