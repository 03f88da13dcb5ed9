/**
 Spreadsheet column names: bijective base 26 over the letters A to Z, as cell references need in section
 18.3.1.4 of ECMA-376 Part 1.
 */
module ColumnNames {
  predicate IsLetter(c: char) {
    'A' <= c <= 'Z'
  }

  predicate IsName(s: string) {
    forall i :: 0 <= i < |s| ==> IsLetter(s[i])
  }

  function Letter(d: int): char
    requires 0 <= d < 26
  {
    'A' + d as char
  }

  function Digit(c: char): int
    requires IsLetter(c)
  {
    (c - 'A') as int
  }

  lemma LetterDigit(d: int)
    requires 0 <= d < 26
    ensures IsLetter(Letter(d)) && Digit(Letter(d)) == d
  {
  }

  lemma DigitLetter(c: char)
    requires IsLetter(c)
    ensures 0 <= Digit(c) < 26 && Letter(Digit(c)) == c
  {
  }

  /** The index of a name; the empty name is what an index below zero gets. */
  function Decode(s: string): int
    requires IsName(s)
  {
    if s == "" then -1 else (Decode(s[..|s| - 1]) + 1) * 26 + Digit(s[|s| - 1])
  }

  lemma {:induction false} DecodeIsIndex(s: string)
    requires IsName(s)
    ensures Decode(s) >= -1 && (Decode(s) == -1 <==> s == "")
  {
    if s != "" {
      DecodeIsIndex(s[..|s| - 1]);
      DigitLetter(s[|s| - 1]);
    }
  }

  /** Any two names of one index are the same name. */
  lemma {:induction false} DecodeIsInjective(s: string, t: string)
    requires IsName(s) && IsName(t) && Decode(s) == Decode(t)
    ensures s == t
  {
    DecodeIsIndex(s);
    DecodeIsIndex(t);
    if s != "" {
      var n, m := |s| - 1, |t| - 1;
      DigitLetter(s[n]);
      DigitLetter(t[m]);
      DecodeIsIndex(s[..n]);
      DecodeIsIndex(t[..m]);
      SameQuotient(Decode(s[..n]) + 1, Digit(s[n]), Decode(t[..m]) + 1, Digit(t[m]));
      DecodeIsInjective(s[..n], t[..m]);
      assert s == s[..n] + [s[n]] && t == t[..m] + [t[m]];
    }
  }

  lemma SameQuotient(q: int, r: int, p: int, t: int)
    requires 0 <= r < 26 && 0 <= t < 26 && q * 26 + r == p * 26 + t
    ensures q == p && r == t
  {
  }

  /** The loop of columnName: each round puts the next letter in front; a negative index has no name. */
  method ColumnName(index: int) returns (result: string)
    ensures IsName(result)
    ensures Decode(result) == if index < 0 then -1 else index
  {
    result := "";
    var rest := index;
    while rest >= 0
      invariant IsName(result) && if index < 0 then rest == index && result == "" else rest >= -1
      invariant index >= 0 ==> Follows(rest, result) == index
      decreases rest
    {
      var d := rest % 26;
      LetterDigit(d);
      FollowsFront(rest, Letter(d), result);
      result := [Letter(d)] + result;
      rest := rest / 26 - 1;
    }
    if index >= 0 { FollowsNothing(result); }
  }

  /** The index reached from one already read, by reading more letters. */
  function Follows(start: int, s: string): int
    requires IsName(s)
  {
    if s == "" then start else (Follows(start, s[..|s| - 1]) + 1) * 26 + Digit(s[|s| - 1])
  }

  lemma {:induction false} FollowsNothing(s: string)
    requires IsName(s)
    ensures Follows(-1, s) == Decode(s)
  {
    if s != "" { FollowsNothing(s[..|s| - 1]); }
  }

  lemma {:induction false} FollowsFront(rest: int, c: char, s: string)
    requires IsName(s) && rest >= 0 && IsLetter(c) && Digit(c) == rest % 26
    ensures IsName([c] + s) && Follows(rest / 26 - 1, [c] + s) == Follows(rest, s)
  {
    if s == "" {
      assert [c] + s == [c] && [c][..0] == "";
      assert Follows(rest / 26 - 1, [c][..0]) == rest / 26 - 1;
    } else {
      FollowsFront(rest, c, s[..|s| - 1]);
      assert ([c] + s)[..|s|] == [c] + s[..|s| - 1];
    }
  }

  /** Shorter names come first, names of one length in alphabetical order. */
  predicate Before(s: string, t: string)
    requires IsName(s) && IsName(t)
  {
    |s| < |t| || (|s| == |t| && exists i :: 0 <= i < |s| && s[..i] == t[..i] && s[i] < t[i])
  }

  /** The least index of a name of n + 1 letters. */
  function First(n: nat): int {
    if n == 0 then 0 else (First(n - 1) + 1) * 26
  }

  lemma {:induction false} DecodeRange(s: string)
    requires IsName(s) && s != ""
    ensures First(|s| - 1) <= Decode(s) < First(|s|)
  {
    var n := |s| - 1;
    DigitLetter(s[n]);
    if n > 0 {
      DecodeRange(s[..n]);
    } else {
      assert Decode(s[..0]) == -1 && First(1) == (First(0) + 1) * 26;
    }
  }

  lemma {:induction false} FirstGrows(n: nat, m: nat)
    requires n <= m
    ensures 0 <= First(n) <= First(m)
  {
    if n < m {
      FirstGrows(n, m - 1);
    } else if n > 0 {
      FirstGrows(n - 1, n - 1);
    }
  }

  lemma {:induction false} AlphabeticalIsSmaller(s: string, t: string, i: nat)
    requires IsName(s) && IsName(t) && |s| == |t| && i < |s| && s[..i] == t[..i] && s[i] < t[i]
    ensures Decode(s) < Decode(t)
  {
    var n := |s| - 1;
    DigitLetter(s[n]);
    DigitLetter(t[n]);
    if i < n {
      assert s[..n][..i] == s[..i] && t[..n][..i] == t[..i];
      AlphabeticalIsSmaller(s[..n], t[..n], i);
    }
  }

  /** A name stands before another exactly when its index is smaller. */
  lemma {:induction false} OrderIff(s: string, t: string)
    requires IsName(s) && IsName(t)
    ensures Before(s, t) <==> Decode(s) < Decode(t)
  {
    BeforeIsSmaller(s, t);
    BeforeIsSmaller(t, s);
    if !Before(s, t) && !Before(t, s) {
      NeitherIsSame(s, t);
    }
  }

  lemma BeforeIsSmaller(s: string, t: string)
    requires IsName(s) && IsName(t)
    ensures Before(s, t) ==> Decode(s) < Decode(t)
  {
    if |s| < |t| {
      DecodeIsIndex(s);
      DecodeIsIndex(t);
      DecodeRange(t);
      FirstGrows(|s|, |t| - 1);
      if s != "" { DecodeRange(s); }
    } else if Before(s, t) {
      var i :| 0 <= i < |s| && s[..i] == t[..i] && s[i] < t[i];
      AlphabeticalIsSmaller(s, t, i);
    }
  }

  lemma {:induction false} NeitherIsSame(s: string, t: string)
    requires IsName(s) && IsName(t) && !Before(s, t) && !Before(t, s)
    ensures s == t
  {
    var i := 0;
    while i < |s|
      invariant i <= |s| && s[..i] == t[..i]
    {
      assert s[i] == t[i];
      i := i + 1;
    }
    assert s[..|s|] == s && t[..|t|] == t;
  }
}
