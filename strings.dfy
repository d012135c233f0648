/**
 * The handful of Python `str` operations the program relies on:
 * `isspace`/`strip`, `lower`/`upper` (over ASCII letters), `replace` of one
 * character, `in` and `split` on a one-character separator, and `str` of a
 * non-negative integer.
 */
module Strings {

  /** Python's `str.isspace()` for one character. */
  predicate IsSpace(c: char) {
    || ('\t' <= c <= '\r')
    || ('\U{1C}' <= c <= ' ')
    || c == '\U{85}' || c == '\U{A0}' || c == '\U{1680}'
    || ('\U{2000}' <= c <= '\U{200A}')
    || c == '\U{2028}' || c == '\U{2029}' || c == '\U{202F}' || c == '\U{205F}' || c == '\U{3000}'
  }

  predicate AllSpace(s: string) {
    forall i :: 0 <= i < |s| ==> IsSpace(s[i])
  }

  /** `r` is `s` with whitespace removed from both ends, and nothing else. */
  ghost predicate IsTrimOf(r: string, s: string) {
    exists i, j :: TrimAt(r, s, i, j)
  }

  /** `r` is the slice `s[i..j]`, only whitespace lies outside it, and it neither starts nor ends with whitespace. */
  predicate TrimAt(r: string, s: string, i: int, j: int) {
    0 <= i <= j <= |s| && r == s[i..j] && AllSpace(s[..i]) && AllSpace(s[j..])
    && (r != [] ==> !IsSpace(r[0]) && !IsSpace(r[|r| - 1]))
  }

  function StripLeft(s: string): string {
    if s != [] && IsSpace(s[0]) then StripLeft(s[1..]) else s
  }

  function StripRight(s: string): string {
    if s != [] && IsSpace(s[|s| - 1]) then StripRight(s[..|s| - 1]) else s
  }

  /** `lstrip()` removes a whitespace prefix and stops at the first other character. */
  lemma {:induction false} StripLeftSpec(s: string)
    ensures var r := StripLeft(s);
      && |r| <= |s| && r == s[|s| - |r|..]
      && AllSpace(s[..|s| - |r|])
      && (r != [] ==> !IsSpace(r[0]))
  {
    if s != [] && IsSpace(s[0]) {
      StripLeftSpec(s[1..]);
      var r := StripLeft(s);
      assert s[..|s| - |r|] == [s[0]] + s[1..][..|s| - 1 - |r|];
    }
  }

  /** `rstrip()` removes a whitespace suffix and stops at the last other character. */
  lemma {:induction false} StripRightSpec(s: string)
    ensures var r := StripRight(s);
      && |r| <= |s| && r == s[..|r|]
      && AllSpace(s[|r|..])
      && (r != [] ==> !IsSpace(r[|r| - 1]))
  {
    if s != [] && IsSpace(s[|s| - 1]) {
      StripRightSpec(s[..|s| - 1]);
      var r := StripRight(s);
      assert s[|r|..] == s[..|s| - 1][|r|..] + [s[|s| - 1]];
    }
  }

  /** Python's `str.strip()` with no argument. */
  function Strip(s: string): string {
    StripRight(StripLeft(s))
  }

  /** `Strip` removes exactly the surrounding whitespace. */
  lemma StripTrims(s: string)
    ensures IsTrimOf(Strip(s), s)
  {
    var l := StripLeft(s);
    var r := StripRight(l);
    StripLeftSpec(s);
    StripRightSpec(l);
    var i := |s| - |l|;
    assert r == s[i..i + |r|];
    assert AllSpace(s[i + |r|..]) by {
      assert s[i + |r|..] == l[|r|..];
    }
    assert TrimAt(r, s, i, i + |r|);
  }

  /** A trim is empty exactly when the whole string is whitespace. */
  lemma TrimEmptyIff(r: string, s: string)
    requires IsTrimOf(r, s)
    ensures r == [] <==> AllSpace(s)
  {
    var i, j :| TrimAt(r, s, i, j);
    if r == [] {
      forall k | 0 <= k < |s| ensures IsSpace(s[k]) {
        if k < i { assert s[..i][k] == s[k]; } else { assert s[j..][k - j] == s[k]; }
      }
    } else {
      assert s[i] == r[0];
    }
  }

  /** Stripping adds no character. */
  lemma StripKeepsOut(s: string, c: char)
    requires c !in s
    ensures c !in Strip(s)
  {
    var r := Strip(s);
    StripTrims(s);
    var a, b :| TrimAt(r, s, a, b);
    forall i | 0 <= i < |r| ensures r[i] != c { assert r[i] == s[a + i]; }
  }

  /** There is only one way to trim a string: `Strip` is fully determined by `IsTrimOf`. */
  lemma TrimIsUnique(s: string, r1: string, r2: string)
    requires IsTrimOf(r1, s) && IsTrimOf(r2, s)
    ensures r1 == r2
  {
    TrimEmptyIff(r1, s);
    TrimEmptyIff(r2, s);
    if r1 != [] && r2 != [] {
      var i1, j1 :| TrimAt(r1, s, i1, j1);
      var i2, j2 :| TrimAt(r2, s, i2, j2);
      SameBounds(s, i1, j1, i2, j2);
    }
  }

  /** Two non-empty whitespace-free-ended slices with whitespace around them are the same slice. */
  lemma SameBounds(s: string, i1: int, j1: int, i2: int, j2: int)
    requires 0 <= i1 < j1 <= |s| && AllSpace(s[..i1]) && AllSpace(s[j1..])
    requires 0 <= i2 < j2 <= |s| && AllSpace(s[..i2]) && AllSpace(s[j2..])
    requires !IsSpace(s[i1]) && !IsSpace(s[j1 - 1]) && !IsSpace(s[i2]) && !IsSpace(s[j2 - 1])
    ensures i1 == i2 && j1 == j2
  {
    SpaceAround(s, i1, j1);
    SpaceAround(s, i2, j2);
  }

  lemma SpaceAround(s: string, i: int, j: int)
    requires 0 <= i <= j <= |s| && AllSpace(s[..i]) && AllSpace(s[j..])
    ensures forall k :: 0 <= k < i ==> IsSpace(s[k])
    ensures forall k :: j <= k < |s| ==> IsSpace(s[k])
  {
    forall k | 0 <= k < i ensures IsSpace(s[k]) { assert s[..i][k] == s[k]; }
    forall k | j <= k < |s| ensures IsSpace(s[k]) { assert s[j..][k - j] == s[k]; }
  }

  /** Stripping twice is stripping once. */
  lemma StripIdempotent(s: string)
    ensures Strip(Strip(s)) == Strip(s)
  {
    var r := Strip(s);
    StripTrims(s);
    StripTrims(r);
    assert TrimAt(r, r, 0, |r|) by {
      assert r == r[0..|r|] && r[..0] == [] && r[|r|..] == [];
    }
    TrimIsUnique(r, Strip(r), r);
  }

  predicate IsUpper(c: char) { 'A' <= c <= 'Z' }
  predicate IsLower(c: char) { 'a' <= c <= 'z' }

  function LowerChar(c: char): (d: char)
    ensures !IsUpper(d)
    ensures IsUpper(c) ==> IsLower(d) && d as int == c as int + 32
    ensures !IsUpper(c) ==> d == c
  {
    if IsUpper(c) then (c as int + 32) as char else c
  }

  function UpperChar(c: char): (d: char)
    ensures !IsLower(d)
    ensures IsLower(c) ==> IsUpper(d) && d as int == c as int - 32
    ensures !IsLower(c) ==> d == c
  {
    if IsLower(c) then (c as int - 32) as char else c
  }

  /** Python's `str.lower()`, over ASCII letters. */
  function Lower(s: string): (r: string)
    ensures |r| == |s|
    ensures forall i :: 0 <= i < |s| ==> !IsUpper(r[i])
    ensures forall i :: 0 <= i < |s| ==>
      && (IsUpper(s[i]) ==> r[i] as int == s[i] as int + 32)
      && (!IsUpper(s[i]) ==> r[i] == s[i])
  {
    seq(|s|, i requires 0 <= i < |s| => LowerChar(s[i]))
  }

  /** Python's `str.upper()`, over ASCII letters. */
  function Upper(s: string): (r: string)
    ensures |r| == |s|
    ensures forall i :: 0 <= i < |s| ==> !IsLower(r[i])
    ensures forall i :: 0 <= i < |s| ==>
      && (IsLower(s[i]) ==> r[i] as int == s[i] as int - 32)
      && (!IsLower(s[i]) ==> r[i] == s[i])
  {
    seq(|s|, i requires 0 <= i < |s| => UpperChar(s[i]))
  }

  /** A string without upper-case letters is its own lower-case form. */
  lemma LowerOfLowered(s: string)
    requires forall i :: 0 <= i < |s| ==> !IsUpper(s[i])
    ensures Lower(s) == s
  {
  }

  /** `lower()` is idempotent. */
  lemma LowerIdempotent(s: string)
    ensures Lower(Lower(s)) == Lower(s)
  {
    LowerOfLowered(Lower(s));
  }

  /** Python's `s.replace(from, to)` for one-character `from` and `to`. */
  function ReplaceChar(s: string, from: char, to: char): (r: string)
    ensures |r| == |s|
    ensures from != to ==> from !in r
    ensures forall i :: 0 <= i < |s| && s[i] != from ==> r[i] == s[i]
    ensures forall i :: 0 <= i < |s| && s[i] == from ==> r[i] == to
  {
    if s == [] then []
    else [if s[0] == from then to else s[0]] + ReplaceChar(s[1..], from, to)
  }

  /** Number of occurrences of `c` in `s`. */
  function Count(s: string, c: char): nat {
    multiset(s)[c]
  }

  /** Index of the first `c` in `s`, or `|s|` when there is none. */
  function FirstIndex(s: string, c: char): (i: nat)
    ensures i <= |s|
    ensures c in s ==> i < |s|
  {
    if s == [] then 0
    else if s[0] == c then 0
    else FirstIndex(s[1..], c) + 1
  }

  /** `FirstIndex` finds the first occurrence, and finds none exactly when there is none. */
  lemma {:induction false} FirstIndexSpec(s: string, c: char)
    ensures var i := FirstIndex(s, c);
      && c !in s[..i]
      && (i < |s| ==> s[i] == c)
      && (i == |s| <==> c !in s)
  {
    if s != [] && s[0] != c {
      FirstIndexSpec(s[1..], c);
      var k := FirstIndex(s[1..], c);
      assert s[..k + 1] == [s[0]] + s[1..][..k];
    }
  }

  /** The first `c` is at `i` when `s[i]` is `c` and no earlier character is. */
  lemma FirstIndexAt(s: string, c: char, i: nat)
    requires i < |s| && s[i] == c && c !in s[..i]
    ensures FirstIndex(s, c) == i
  {
    FirstIndexSpec(s, c);
    var k := FirstIndex(s, c);
    assert k < |s|;
    assert k <= i by {
      assert s[..k + 1][k] == c;
    }
    assert s[..i][..k] == s[..k];
  }

  /** Joins non-empty `parts` with `sep` between consecutive parts. */
  function JoinWith(parts: seq<string>, sep: char): string
    requires |parts| >= 1
  {
    if |parts| == 1 then parts[0] else parts[0] + [sep] + JoinWith(parts[1..], sep)
  }

  /** Python's `s.split(sep)` for a one-character separator. */
  function SplitOn(s: string, sep: char): (parts: seq<string>)
    ensures |parts| >= 1
    decreases |s|
  {
    var i := FirstIndex(s, sep);
    if i == |s| then [s] else [s[..i]] + SplitOn(s[i + 1..], sep)
  }

  /** `split` yields one more part than there are separators. */
  lemma {:induction false} SplitOnCount(s: string, sep: char)
    ensures |SplitOn(s, sep)| == Count(s, sep) + 1
    decreases |s|
  {
    var i := FirstIndex(s, sep);
    FirstIndexSpec(s, sep);
    if i == |s| {
      assert multiset(s)[sep] == 0;
    } else {
      SplitOnCount(s[i + 1..], sep);
      assert s == s[..i] + [sep] + s[i + 1..];
      assert multiset(s) == multiset(s[..i]) + multiset([sep]) + multiset(s[i + 1..]);
      assert multiset(s[..i])[sep] == 0;
    }
  }

  /** No part holds the separator. */
  lemma {:induction false} SplitOnNoSeparator(s: string, sep: char)
    ensures forall k :: 0 <= k < |SplitOn(s, sep)| ==> sep !in SplitOn(s, sep)[k]
    decreases |s|
  {
    var i := FirstIndex(s, sep);
    FirstIndexSpec(s, sep);
    if i < |s| {
      var rest := SplitOn(s[i + 1..], sep);
      SplitOnNoSeparator(s[i + 1..], sep);
      var parts := SplitOn(s, sep);
      forall k | 0 <= k < |parts| ensures sep !in parts[k] {
        if k > 0 { assert parts[k] == rest[k - 1]; }
      }
    }
  }

  /** Joining the parts with the separator gives back `s`. */
  lemma {:induction false} SplitOnJoin(s: string, sep: char)
    ensures JoinWith(SplitOn(s, sep), sep) == s
    decreases |s|
  {
    var i := FirstIndex(s, sep);
    FirstIndexSpec(s, sep);
    if i < |s| {
      var rest := SplitOn(s[i + 1..], sep);
      SplitOnJoin(s[i + 1..], sep);
      var parts := SplitOn(s, sep);
      assert parts[1..] == rest;
      assert s == s[..i] + [sep] + s[i + 1..];
    }
  }

  /** The single decimal digit `d`. */
  function Digit(d: nat): (c: char)
    requires d < 10
    ensures '0' <= c <= '9' && c as int - '0' as int == d
  {
    ('0' as int + d) as char
  }

  /** Python's `str(n)` for a non-negative integer: its decimal form without leading zeros. */
  function NatToString(n: nat): (r: string)
    ensures |r| >= 1
    ensures |r| == 1 <==> n < 10
    ensures forall i :: 0 <= i < |r| ==> '0' <= r[i] <= '9'
    ensures r[0] == '0' ==> n == 0
    decreases n
  {
    if n < 10 then [Digit(n)] else NatToString(n / 10) + [Digit(n % 10)]
  }

  /** The value of a string of decimal digits: the inverse of `NatToString`. */
  function DecimalValue(s: string): nat
    requires forall i :: 0 <= i < |s| ==> '0' <= s[i] <= '9'
  {
    if s == [] then 0 else 10 * DecimalValue(s[..|s| - 1]) + (s[|s| - 1] as int - '0' as int)
  }

  lemma {:induction false} DecimalRoundTrip(n: nat)
    ensures DecimalValue(NatToString(n)) == n
    decreases n
  {
    if n >= 10 {
      var r := NatToString(n);
      assert r[..|r| - 1] == NatToString(n / 10);
      DecimalRoundTrip(n / 10);
      assert DecimalValue(r) == 10 * (n / 10) + n % 10;
    }
  }

  /** Different numbers have different decimal forms. */
  lemma NatToStringInjective(a: nat, b: nat)
    requires NatToString(a) == NatToString(b)
    ensures a == b
  {
    DecimalRoundTrip(a);
    DecimalRoundTrip(b);
  }
}
