/**
 * The few `QString` operations the plugin relies on, written over `seq<char>`:
 * substring search (`QString::contains`), decimal rendering of a counter
 * (`QString::number`) and whitespace trimming (`QString::trimmed`).
 */
module Strings {

  predicate IsDigit(c: char) { '0' <= c <= '9' }

  predicate AllDigits(s: string) { forall i :: 0 <= i < |s| ==> IsDigit(s[i]) }

  /** `QString::contains(sub)`, case-sensitive: `sub` occurs as a contiguous part of `s`. */
  predicate Contains(s: string, sub: string)
    decreases |s|
  {
    if |sub| > |s| then false
    else if s[..|sub|] == sub then true
    else if s == [] then false
    else Contains(s[1..], sub)
  }

  /** An occurrence at any position is found by `Contains`. */
  lemma {:induction false} ContainsAt(s: string, sub: string, i: nat)
    requires i + |sub| <= |s| && s[i..i + |sub|] == sub
    ensures Contains(s, sub)
    decreases i
  {
    if i == 0 {
      assert s[..|sub|] == sub;
    } else {
      assert s[1..][i - 1..i - 1 + |sub|] == s[i..i + |sub|];
      ContainsAt(s[1..], sub, i - 1);
    }
  }

  /** `sub` sits in `s` starting at index `i`. */
  predicate OccursAt(s: string, sub: string, i: nat)
  {
    i + |sub| <= |s| && s[i..i + |sub|] == sub
  }

  /** Whatever `Contains` finds sits at some index of `s`. */
  lemma {:induction false} ContainsWitness(s: string, sub: string) returns (i: nat)
    requires Contains(s, sub)
    ensures OccursAt(s, sub, i)
    decreases |s|
  {
    if s[..|sub|] == sub {
      i := 0;
    } else {
      var j := ContainsWitness(s[1..], sub);
      assert s[1..][j..j + |sub|] == s[j + 1..j + 1 + |sub|];
      i := j + 1;
    }
  }

  /** `Contains` is exactly "occurs at some index": the search neither misses nor invents an occurrence. */
  lemma ContainsIffOccurs(s: string, sub: string)
    ensures Contains(s, sub) <==> exists i: nat :: OccursAt(s, sub, i)
  {
    if Contains(s, sub) {
      var i := ContainsWitness(s, sub);
    }
    if exists i: nat :: OccursAt(s, sub, i) {
      var i: nat :| OccursAt(s, sub, i);
      ContainsAt(s, sub, i);
    }
  }

  /** A string always contains what was just appended to it. */
  lemma ContainsAppended(s: string, t: string)
    ensures Contains(s + t, t)
  {
    assert (s + t)[|s|..|s| + |t|] == t;
    ContainsAt(s + t, t, |s|);
  }

  function DigitChar(d: nat): (c: char)
    requires d < 10
    ensures IsDigit(c) && c as int - '0' as int == d
  {
    ('0' as int + d) as char
  }

  /** `QString::number(n)` for a non-negative counter: its decimal digits, most significant first. */
  function NatToString(n: nat): (r: string)
    ensures |r| > 0 && AllDigits(r)
    ensures n >= 10 ==> |r| > 1
    decreases n
  {
    if n < 10 then [DigitChar(n)] else NatToString(n / 10) + [DigitChar(n % 10)]
  }

  /** The number a string of decimal digits denotes. */
  function DigitsValue(s: string): nat
    requires AllDigits(s)
  {
    if s == [] then 0 else DigitsValue(s[..|s| - 1]) * 10 + (s[|s| - 1] as int - '0' as int)
  }

  /** Reading back the rendered counter gives the counter. */
  lemma {:induction false} NatToStringRoundTrip(n: nat)
    ensures DigitsValue(NatToString(n)) == n
    decreases n
  {
    var r := NatToString(n);
    if n >= 10 {
      assert r[..|r| - 1] == NatToString(n / 10);
      NatToStringRoundTrip(n / 10);
    }
  }

  /** Rendering is injective: two different counters never render alike. */
  lemma NatToStringInjective(m: nat, n: nat)
    requires NatToString(m) == NatToString(n)
    ensures m == n
  {
    NatToStringRoundTrip(m);
    NatToStringRoundTrip(n);
  }

  /**
   * `QChar::isSpace`: the ASCII controls tab to carriage return, U+0085 and the
   * Unicode space, line and paragraph separators.
   */
  predicate IsSpace(c: char)
  {
    || ('\t' <= c <= '\r') || c == ' ' || c == '\U{0085}' || c == '\U{00A0}' || c == '\U{1680}'
    || ('\U{2000}' <= c <= '\U{200A}') || c == '\U{2028}' || c == '\U{2029}'
    || c == '\U{202F}' || c == '\U{205F}' || c == '\U{3000}'
  }

  function TrimStart(s: string): (r: string)
    ensures |r| <= |s| && r == s[|s| - |r|..]
    ensures r == [] || !IsSpace(r[0])
    ensures forall i :: 0 <= i < |s| - |r| ==> IsSpace(s[i])
  {
    if s != [] && IsSpace(s[0]) then TrimStart(s[1..]) else s
  }

  function TrimEnd(s: string): (r: string)
    ensures |r| <= |s| && r == s[..|r|]
    ensures r == [] || !IsSpace(r[|r| - 1])
    ensures forall i :: |r| <= i < |s| ==> IsSpace(s[i])
  {
    if s != [] && IsSpace(s[|s| - 1]) then TrimEnd(s[..|s| - 1]) else s
  }

  /**
   * `QString::trimmed`: `s` without its leading and trailing whitespace. The
   * result is a contiguous part of `s`, everything cut off is whitespace, and
   * it neither starts nor ends with whitespace.
   */
  function Trimmed(s: string): (r: string)
    ensures exists i, j :: 0 <= i <= j <= |s| && r == s[i..j]
                           && (forall k :: 0 <= k < i ==> IsSpace(s[k]))
                           && (forall k :: j <= k < |s| ==> IsSpace(s[k]))
    ensures r == [] || (!IsSpace(r[0]) && !IsSpace(r[|r| - 1]))
  {
    var t := TrimStart(s);
    var r := TrimEnd(t);
    var i := |s| - |t|;
    assert r == s[i..i + |r|];
    r
  }

  /** Trimming twice is trimming once. */
  lemma TrimmedIdempotent(s: string)
    ensures Trimmed(Trimmed(s)) == Trimmed(s)
  {
    var r := Trimmed(s);
    assert TrimStart(r) == r;
    assert TrimEnd(r) == r;
  }

  /** Trimming leaves nothing exactly when the string is all whitespace. */
  lemma TrimmedEmptyIff(s: string)
    ensures Trimmed(s) == [] <==> forall k :: 0 <= k < |s| ==> IsSpace(s[k])
  {
    var t := TrimStart(s);
    assert t != [] ==> t[0] == s[|s| - |t|];
  }
}
