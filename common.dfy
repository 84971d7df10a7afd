/** Shared vocabulary of the model: optional values, results, real min/max,
    Python slicing, and the ASCII string operations the scripts rely on
    (`str.isdigit`, `int(...)` of a digit string, `str(n)`, `lower`, `strip`,
    the substring test `a in b`). */
module Common {

  datatype Option<+T> = None | Some(value: T)

  datatype Result<+T, +E> = Ok(value: T) | Err(error: E)

  function MinR(a: real, b: real): (r: real)
    ensures r <= a && r <= b && (r == a || r == b)
  {
    if a <= b then a else b
  }

  function MaxR(a: real, b: real): (r: real)
    ensures r >= a && r >= b && (r == a || r == b)
  {
    if a >= b then a else b
  }

  function Abs(x: real): (r: real)
    ensures r >= 0.0 && (r == x || r == -x)
  {
    if x < 0.0 then -x else x
  }

  /** Python's `sum` of a list of floats. */
  function Sum(x: seq<real>): real
  {
    if x == [] then 0.0 else Sum(x[..|x| - 1]) + x[|x| - 1]
  }

  /** Python's `max(lo, min(x, hi))`. */
  function Clamp(x: real, lo: real, hi: real): (r: real)
    requires lo <= hi
    ensures lo <= r <= hi
    ensures lo <= x <= hi ==> r == x
  {
    MaxR(lo, MinR(x, hi))
  }

  /** a / b for 0 <= a <= b, b > 0, is a share in [0, 1]; it is 0 exactly
      when a is, and 1 exactly when a == b. */
  lemma RatioBounds(a: nat, b: nat)
    requires 0 < b && a <= b
    ensures 0.0 <= a as real / b as real <= 1.0
    ensures a as real / b as real == 0.0 <==> a == 0
    ensures a as real / b as real == 1.0 <==> a == b
  {
    var q := a as real / b as real;
    assert q * b as real == a as real;
  }

  function MinN(a: nat, b: nat): (r: nat)
    ensures r <= a && r <= b && (r == a || r == b)
  {
    if a <= b then a else b
  }

  /** Python's `s[a:b]` for non-negative bounds: both ends are clamped to the
      length, and a reversed range is empty. */
  function Slice<T>(s: seq<T>, a: nat, b: nat): (r: seq<T>)
    ensures |r| <= |s|
    ensures a <= b <= |s| ==> r == s[a..b]
  {
    var lo := MinN(a, |s|);
    var hi := MinN(b, |s|);
    if lo <= hi then s[lo..hi] else []
  }

  /** The identifiers 0 .. n-1 of an append-only list of length n. */
  function Ids(n: nat): (r: set<nat>)
    ensures forall x: nat :: x in r <==> x < n
  {
    if n == 0 then {} else Ids(n - 1) + {n - 1}
  }

  lemma {:induction false} IdsSize(n: nat)
    ensures |Ids(n)| == n
  {
    if n > 0 {
      IdsSize(n - 1);
    }
  }

  lemma SubsetCardinality<T>(a: set<T>, b: set<T>)
    requires a <= b
    ensures |a| <= |b|
  {
    assert b == a + (b - a);
  }

  /** A set of identifiers below n has at most n members. */
  lemma IdsSubsetSize(s: set<nat>, n: nat)
    requires forall x :: x in s ==> x < n
    ensures |s| <= n
  {
    IdsSize(n);
    SubsetCardinality(s, Ids(n));
  }

  // ---------------------------------------------------------------------------
  // Digits

  predicate IsDigitChar(c: char) { '0' <= c <= '9' }

  /** `str.isdigit()` on ASCII text: non-empty and every character a digit. */
  predicate IsAllDigits(s: string)
  {
    |s| > 0 && forall i :: 0 <= i < |s| ==> IsDigitChar(s[i])
  }

  function DigitValue(c: char): (d: nat)
    requires IsDigitChar(c)
    ensures d < 10
  {
    (c as int - '0' as int) as nat
  }

  function DigitChar(d: nat): (c: char)
    requires d < 10
    ensures IsDigitChar(c) && DigitValue(c) == d
  {
    ('0' as int + d) as char
  }

  /** `int(s)` for a string of ASCII digits. */
  function DigitsValue(s: string): nat
    requires forall i :: 0 <= i < |s| ==> IsDigitChar(s[i])
  {
    if |s| == 0 then 0 else DigitsValue(s[..|s| - 1]) * 10 + DigitValue(s[|s| - 1])
  }

  /** `str(n)` for a natural number: decimal, no leading zeros. */
  function NatToString(n: nat): (s: string)
    ensures |s| > 0
    decreases n
  {
    if n < 10 then [DigitChar(n)] else NatToString(n / 10) + [DigitChar(n % 10)]
  }

  /** `str(i)` for any integer. */
  function IntToString(i: int): (s: string)
    ensures |s| > 0
  {
    if i >= 0 then NatToString(i) else "-" + NatToString(-i)
  }

  /** Printing a natural number and reading it back gives the number again. */
  lemma {:induction false} NatToStringRoundTrip(n: nat)
    ensures IsAllDigits(NatToString(n))
    ensures DigitsValue(NatToString(n)) == n
    decreases n
  {
    if n >= 10 {
      NatToStringRoundTrip(n / 10);
      var p := NatToString(n / 10);
      var s := p + [DigitChar(n % 10)];
      assert s[..|s| - 1] == p;
      assert forall i :: 0 <= i < |s| ==> IsDigitChar(s[i]) by {
        forall i | 0 <= i < |s| ensures IsDigitChar(s[i]) {
          if i < |p| { assert s[i] == p[i]; }
        }
      }
    }
  }

  // ---------------------------------------------------------------------------
  // Case and whitespace

  function LowerChar(c: char): char
  {
    if 'A' <= c <= 'Z' then (c as int + 32) as char else c
  }

  /** `str.lower()` restricted to ASCII letters. */
  function Lower(s: string): (r: string)
    ensures |r| == |s|
  {
    if |s| == 0 then [] else [LowerChar(s[0])] + Lower(s[1..])
  }

  /** Lower-casing maps every character on its own. */
  lemma {:induction false} LowerAt(s: string)
    ensures forall i :: 0 <= i < |s| ==> Lower(s)[i] == LowerChar(s[i])
  {
    if |s| > 0 {
      LowerAt(s[1..]);
    }
  }

  /** The ASCII characters Python's `str.isspace()` accepts. */
  predicate IsSpace(c: char)
  {
    c == ' ' || c == '\t' || c == '\n' || c == '\r' || c == '\U{B}' || c == '\U{C}'
    || ('\U{1C}' <= c <= '\U{1F}')
  }

  function StripLeft(s: string): (r: string)
    ensures |r| <= |s|
    ensures |r| > 0 ==> !IsSpace(r[0])
  {
    if |s| > 0 && IsSpace(s[0]) then StripLeft(s[1..]) else s
  }

  function StripRight(s: string): (r: string)
    ensures |r| <= |s|
    ensures |r| > 0 ==> !IsSpace(r[|r| - 1])
  {
    if |s| > 0 && IsSpace(s[|s| - 1]) then StripRight(s[..|s| - 1]) else s
  }

  /** Left stripping removes a prefix and nothing else. */
  lemma {:induction false} StripLeftIsSuffix(s: string)
    ensures StripLeft(s) == s[|s| - |StripLeft(s)|..]
  {
    if |s| > 0 && IsSpace(s[0]) {
      StripLeftIsSuffix(s[1..]);
    }
  }

  /** Right stripping removes a suffix and nothing else. */
  lemma {:induction false} StripRightIsPrefix(s: string)
    ensures StripRight(s) == s[..|StripRight(s)|]
  {
    if |s| > 0 && IsSpace(s[|s| - 1]) {
      StripRightIsPrefix(s[..|s| - 1]);
    }
  }

  /** `str.strip()` with no argument. */
  function Strip(s: string): (r: string)
    ensures |r| <= |s|
    ensures |r| > 0 ==> !IsSpace(r[0]) && !IsSpace(r[|r| - 1])
  {
    StripRightIsPrefix(StripLeft(s));
    StripRight(StripLeft(s))
  }

  /** The stripped text is empty exactly when the text is all whitespace. */
  lemma {:induction false} StripEmptyIffBlank(s: string)
    ensures Strip(s) == [] <==> forall i :: 0 <= i < |s| ==> IsSpace(s[i])
  {
    StripLeftEmptyIffBlank(s);
    var l := StripLeft(s);
    if l != [] {
      StripRightEmptyIffBlank(l);
    }
  }

  lemma {:induction false} StripLeftEmptyIffBlank(s: string)
    ensures StripLeft(s) == [] <==> forall i :: 0 <= i < |s| ==> IsSpace(s[i])
  {
    if |s| > 0 && IsSpace(s[0]) {
      StripLeftEmptyIffBlank(s[1..]);
      if StripLeft(s[1..]) == [] {
        forall i | 0 <= i < |s| ensures IsSpace(s[i]) {
          if i > 0 { assert s[i] == s[1..][i - 1]; }
        }
      } else {
        var k :| 0 <= k < |s[1..]| && !IsSpace(s[1..][k]);
        assert !IsSpace(s[k + 1]);
      }
    }
  }

  lemma {:induction false} StripRightEmptyIffBlank(s: string)
    ensures StripRight(s) == [] <==> forall i :: 0 <= i < |s| ==> IsSpace(s[i])
  {
    if |s| > 0 && IsSpace(s[|s| - 1]) {
      var p := s[..|s| - 1];
      StripRightEmptyIffBlank(p);
      if StripRight(p) == [] {
        forall i | 0 <= i < |s| ensures IsSpace(s[i]) {
          if i < |s| - 1 { assert s[i] == p[i]; }
        }
      } else {
        var k :| 0 <= k < |p| && !IsSpace(p[k]);
        assert !IsSpace(s[k]);
      }
    }
  }

  // ---------------------------------------------------------------------------
  // Substrings

  predicate IsPrefix(p: string, s: string)
  {
    |p| <= |s| && s[..|p|] == p
  }

  /** p occurs in s at offset k. */
  predicate OccursAt(p: string, s: string, k: nat)
  {
    k + |p| <= |s| && s[k..k + |p|] == p
  }

  /** Python's `p in s` for two strings: p occurs at some offset of s. */
  predicate IsSubstring(p: string, s: string)
  {
    exists k: nat | k <= |s| :: OccursAt(p, s, k)
  }

  /** A one-character string occurs in s exactly when its character does;
      the empty string occurs in every string. */
  lemma SingleCharSubstring(p: string, s: string)
    requires |p| <= 1
    ensures |p| == 0 ==> IsSubstring(p, s)
    ensures |p| == 1 ==> (IsSubstring(p, s) <==> p[0] in s)
  {
    if |p| == 0 {
      assert OccursAt(p, s, 0);
    } else if p[0] in s {
      var k :| 0 <= k < |s| && s[k] == p[0];
      assert s[k..k + 1] == p;
      assert OccursAt(p, s, k);
    }
  }

  /** A non-empty substring's first character occurs in the string. */
  lemma SubstringFirstChar(p: string, s: string)
    ensures IsSubstring(p, s) && |p| > 0 ==> p[0] in s
  {
    if IsSubstring(p, s) && |p| > 0 {
      var k: nat :| k <= |s| && OccursAt(p, s, k);
      assert s[k..k + |p|][0] == s[k];
    }
  }

  /** Python's `s in set("...")`: s is one of the set's one-character
      strings. */
  predicate InChars(s: string, chars: set<char>)
  {
    |s| == 1 && s[0] in chars
  }

  /** Removing characters keeps every character not removed. */
  lemma {:induction false} RemoveCharsKeeps(s: string, drop: set<char>, c: char)
    requires c in s && c !in drop
    ensures c in RemoveChars(s, drop)
  {
    if s[0] != c {
      assert c in s[1..];
      RemoveCharsKeeps(s[1..], drop, c);
    }
  }

  /** `s` with every character in `drop` removed, as chained
      `str.replace(c, '')` calls do. */
  function RemoveChars(s: string, drop: set<char>): (r: string)
    ensures |r| <= |s|
    ensures forall i :: 0 <= i < |r| ==> r[i] !in drop
    ensures forall c :: c in r ==> c in s
  {
    if |s| == 0 then []
    else (if s[0] in drop then [] else [s[0]]) + RemoveChars(s[1..], drop)
  }
}
