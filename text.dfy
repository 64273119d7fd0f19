/**
 * The string operations the dashboard relies on: `toLowerCase`, `includes`,
 * `startsWith`, `localeCompare` and number-to-text conversion in template
 * strings. A Dafny `char` is a Unicode scalar value, so strings here are
 * sequences of code points; JavaScript strings are sequences of UTF-16 code
 * units. The two agree on text within the Basic Multilingual Plane.
 */
module Text {

  /** `toLowerCase` on one character, for the ASCII letters. */
  function Lower(c: char): char {
    if 'A' <= c <= 'Z' then (c as int + 32) as char else c
  }

  function ToLower(s: string): (r: string)
    ensures |r| == |s|
    ensures forall i :: 0 <= i < |s| ==> r[i] == Lower(s[i])
  {
    seq(|s|, i requires 0 <= i < |s| => Lower(s[i]))
  }

  /** Lower-casing twice is lower-casing once. */
  lemma ToLowerIdempotent(s: string)
    ensures ToLower(ToLower(s)) == ToLower(s)
  {
    assert forall i :: 0 <= i < |s| ==> Lower(Lower(s[i])) == Lower(s[i]);
  }

  /** `s.startsWith(p)`. */
  predicate StartsWith(s: string, p: string) {
    |p| <= |s| && s[..|p|] == p
  }

  /** `s.includes(t)`: `t` occurs in `s` at some position. */
  predicate Contains(s: string, t: string) {
    exists i :: 0 <= i <= |s| - |t| && StartsWith(s[i..], t)
  }

  /** Every string includes the empty string. */
  lemma ContainsEmpty(s: string)
    ensures Contains(s, "")
  {
    assert StartsWith(s[0..], "");
  }

  /** Exhibits an occurrence of `t` at position `i`. */
  lemma ContainsAt(s: string, t: string, i: nat)
    requires i + |t| <= |s| && s[i..i + |t|] == t
    ensures Contains(s, t)
  {
    assert StartsWith(s[i..], t);
  }

  /** Exhibits an occurrence of `t` at position `i` of the lower-cased `s`. */
  lemma LoweredContainsAt(s: string, t: string, i: nat)
    requires i + |t| <= |s| && forall k :: 0 <= k < |t| ==> Lower(s[i + k]) == t[k]
    ensures Contains(ToLower(s), t)
  {
    var lower := ToLower(s);
    assert lower[i..i + |t|] == t;
    ContainsAt(lower, t, i);
  }

  /** The character `c` occurs in `s`. */
  predicate HasChar(s: string, c: char) {
    exists i :: 0 <= i < |s| && s[i] == c
  }

  /** The two characters `a` `b` occur next to each other in `s`. */
  predicate HasPair(s: string, a: char, b: char) {
    exists i :: 0 <= i < |s| - 1 && s[i] == a && s[i + 1] == b
  }

  /** `t` cannot occur in `s` when one of its characters does not. */
  lemma AbsentChar(s: string, t: string, k: nat)
    requires k < |t| && !HasChar(s, t[k])
    ensures !Contains(s, t)
  {
  }

  /** `t` cannot occur in `s` when two adjacent characters of it do not. */
  lemma AbsentPair(s: string, t: string, k: nat)
    requires k + 1 < |t| && !HasPair(s, t[k], t[k + 1])
    ensures !Contains(s, t)
  {
  }

  /**
   * The order `localeCompare(a, b) <= 0` stands for: here the lexicographic
   * order of code points (locale collation is not modelled).
   */
  predicate NameLeq(a: string, b: string)
    decreases |a|
  {
    a == [] || (b != [] && (a[0] < b[0] || (a[0] == b[0] && NameLeq(a[1..], b[1..]))))
  }

  lemma {:induction false} NameLeqTotal(a: string, b: string)
    ensures NameLeq(a, b) || NameLeq(b, a)
    decreases |a|
  {
    if a != [] && b != [] && a[0] == b[0] {
      NameLeqTotal(a[1..], b[1..]);
    }
  }

  lemma {:induction false} NameLeqTransitive(a: string, b: string, c: string)
    requires NameLeq(a, b) && NameLeq(b, c)
    ensures NameLeq(a, c)
    decreases |a|
  {
    if a != [] && b != [] && c != [] && a[0] == b[0] == c[0] {
      NameLeqTransitive(a[1..], b[1..], c[1..]);
    }
  }

  function DigitChar(d: nat): (c: char)
    requires d < 10
    ensures '0' <= c <= '9' && c as int - '0' as int == d
  {
    ('0' as int + d) as char
  }

  /** The decimal text of `n`, as a template string renders a non-negative integer. */
  function NatToString(n: nat): (r: string)
    ensures r != []
    ensures forall i :: 0 <= i < |r| ==> '0' <= r[i] <= '9'
  {
    if n < 10 then [DigitChar(n)] else NatToString(n / 10) + [DigitChar(n % 10)]
  }

  /** The number a string of decimal digits denotes. */
  function DigitsValue(s: string): nat
    requires forall i :: 0 <= i < |s| ==> '0' <= s[i] <= '9'
    decreases |s|
  {
    if s == [] then 0
    else DigitsValue(s[..|s| - 1]) * 10 + (s[|s| - 1] as int - '0' as int)
  }

  /** A run of digits ended by a non-digit is determined by the whole string. */
  lemma DigitPrefixUnique(a1: string, r1: string, a2: string, r2: string)
    requires forall i :: 0 <= i < |a1| ==> '0' <= a1[i] <= '9'
    requires forall i :: 0 <= i < |a2| ==> '0' <= a2[i] <= '9'
    requires r1 != [] && !('0' <= r1[0] <= '9') && r2 != [] && !('0' <= r2[0] <= '9')
    requires a1 + r1 == a2 + r2
    ensures a1 == a2
  {
    var t := a1 + r1;
    assert forall i :: 0 <= i < |a1| ==> '0' <= t[i] <= '9';
    assert forall i :: 0 <= i < |a2| ==> '0' <= t[i] <= '9';
    assert !('0' <= t[|a1|] <= '9') && !('0' <= t[|a2|] <= '9');
    assert a1 == t[..|a1|] == a2;
  }

  /** Reading back the rendered text gives the number: rendering loses nothing. */
  lemma {:induction false} NatToStringRoundTrip(n: nat)
    ensures DigitsValue(NatToString(n)) == n
  {
    if n >= 10 {
      NatToStringRoundTrip(n / 10);
      var r := NatToString(n);
      assert r[..|r| - 1] == NatToString(n / 10);
    }
  }
}
