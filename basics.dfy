/** Shared vocabulary of the model: optional values, Python's `int()` on a
    float, and the ASCII text operations the three source files use
    (`str.lower()` and the substring test `sub in s`). */
module Basics {

  /** Python's `None` or a present value. */
  datatype Option<+T> = None | Some(value: T)

  /** Python's `int(x)` on a float: truncation toward zero. */
  function Trunc(x: real): (n: int)
    ensures x >= 0.0 ==> 0 <= n && n as real <= x < n as real + 1.0
    ensures x < 0.0 ==> n <= 0 && n as real - 1.0 < x <= n as real
  {
    if x >= 0.0 then x.Floor else -((-x).Floor)
  }

  /** Truncation is monotone on non-negative values. */
  lemma TruncMonotone(x: real, y: real)
    requires 0.0 <= x <= y
    ensures Trunc(x) <= Trunc(y)
  {
  }

  /** Truncating a whole number gives it back. */
  lemma TruncOfInt(n: int)
    ensures Trunc(n as real) == n
  {
  }

  predicate IsAsciiUpper(c: char) { 'A' <= c <= 'Z' }

  predicate IsAsciiLower(c: char) { 'a' <= c <= 'z' }

  predicate IsAsciiDigit(c: char) { '0' <= c <= '9' }

  /** `str.lower()` on one character, restricted to ASCII. */
  function Lower(c: char): (d: char)
    ensures IsAsciiUpper(c) ==> IsAsciiLower(d) && d as int == c as int + 32
    ensures !IsAsciiUpper(c) ==> d == c
    ensures !IsAsciiUpper(d)
  {
    if IsAsciiUpper(c) then (c as int + 32) as char else c
  }

  /** `str.lower()` on a string, character by character. */
  function LowerStr(s: string): (r: string)
    ensures |r| == |s|
    ensures forall i :: 0 <= i < |s| ==> r[i] == Lower(s[i])
  {
    if s == [] then [] else [Lower(s[0])] + LowerStr(s[1..])
  }

  /** Lowering a string twice is lowering it once. */
  lemma LowerStrIdempotent(s: string)
    ensures LowerStr(LowerStr(s)) == LowerStr(s)
  {
  }

  predicate IsPrefix(p: string, s: string)
  {
    |p| <= |s| && s[..|p|] == p
  }

  /** Python's `sub in s` on strings: `sub` occurs somewhere in `s`. */
  predicate Contains(s: string, sub: string)
  {
    IsPrefix(sub, s) || (|s| > 0 && Contains(s[1..], sub))
  }

  /** `sub` occurs in `s` starting at offset `i`. */
  predicate OccursAt(s: string, sub: string, i: int)
  {
    0 <= i <= |s| - |sub| && s[i..i + |sub|] == sub
  }

  /** `Contains` holds exactly when `sub` occurs at some offset of `s`. */
  lemma {:induction false} ContainsIffOccurs(s: string, sub: string)
    ensures Contains(s, sub) <==> exists i :: OccursAt(s, sub, i)
  {
    if Contains(s, sub) {
      if IsPrefix(sub, s) {
        assert OccursAt(s, sub, 0);
      } else {
        ContainsIffOccurs(s[1..], sub);
        var i :| OccursAt(s[1..], sub, i);
        assert s[i + 1..i + 1 + |sub|] == s[1..][i..i + |sub|];
        assert OccursAt(s, sub, i + 1);
      }
    } else {
      forall i | 0 <= i <= |s| - |sub|
        ensures !OccursAt(s, sub, i)
      {
        if i > 0 {
          assert s[1..][i - 1..i - 1 + |sub|] == s[i..i + |sub|];
          ContainsIffOccurs(s[1..], sub);
          assert !OccursAt(s[1..], sub, i - 1);
        }
      }
    }
  }

  /** SQLite's BINARY collation on text: lexicographic order of code points
      (UTF-8 byte order agrees with it). */
  predicate LexLe(a: string, b: string)
  {
    a == [] || (b != [] && (a[0] < b[0] || (a[0] == b[0] && LexLe(a[1..], b[1..]))))
  }

  lemma {:induction false} LexLeTotal(a: string, b: string)
    ensures LexLe(a, b) || LexLe(b, a)
  {
    if a != [] && b != [] && a[0] == b[0] {
      LexLeTotal(a[1..], b[1..]);
    }
  }

  lemma {:induction false} LexLeTransitive(a: string, b: string, c: string)
    requires LexLe(a, b) && LexLe(b, c)
    ensures LexLe(a, c)
  {
    if a != [] && a[0] == b[0] && b[0] == c[0] {
      LexLeTransitive(a[1..], b[1..], c[1..]);
    }
  }

  // Small facts of real arithmetic the capacity proofs rely on.

  lemma DivByAtLeastOne(m: real, d: real)
    requires m >= 0.0 && d >= 1.0
    ensures 0.0 <= m / d <= m
  {
    assert m / d * d == m;
    assert m / d <= m / d * d;
  }

  lemma DivAntitone(m: real, d1: real, d2: real)
    requires m >= 0.0 && 1.0 <= d1 <= d2
    ensures m / d2 <= m / d1
  {
    assert m / d2 * d2 == m && m / d1 * d1 == m;
    assert m / d2 * d1 <= m / d2 * d2;
  }

  lemma MulMonotone(a: real, b: real, k: real)
    requires 0.0 <= a <= b && k >= 0.0
    ensures 0.0 <= a * k <= b * k
  {
  }

  lemma NonNegativeProduct(a: real, b: real)
    ensures a >= 0.0 && b >= 0.0 ==> a * b >= 0.0
  {
    if a >= 0.0 && b >= 0.0 {
      MulMonotone(0.0, a, b);
    }
  }

  /** A fraction of a non-negative value lies between 0 and the value. */
  lemma FractionOf(a: real, r: real)
    requires a >= 0.0 && 0.0 <= r <= 1.0
    ensures 0.0 <= a * r <= a
  {
    MulMonotone(r, 1.0, a);
  }

  lemma ScaleByFractions(a: real, r: real, t: real, x: real)
    requires a >= 0.0 && 0.0 <= r <= 1.0 && 0.0 <= t <= 1.0 && x == a * r * t
    ensures 0.0 <= x <= a
  {
    var y := a * r;
    FractionOf(a, r);
    assert 0.0 <= y <= a;
    FractionOf(y, t);
    assert x == y * t;
  }

  lemma TruncBounded(x: real, a: int)
    requires 0.0 <= x <= a as real
    ensures 0 <= Trunc(x) <= a
  {
    assert Trunc(x) as real <= x;
  }

  lemma TruncOfScaled(a: int, r: real, t: real)
    requires a >= 0 && 0.0 <= r <= 1.0 && 0.0 <= t <= 1.0
    ensures 0 <= Trunc(a as real * r * t) <= a
  {
    ScaleByFractions(a as real, r, t, a as real * r * t);
    TruncBounded(a as real * r * t, a);
  }

  lemma TruncOfFraction(a: int, r: real)
    requires a >= 0 && 0.0 <= r <= 1.0
    ensures 0 <= Trunc(a as real * r) <= a
  {
    FractionOf(a as real, r);
    TruncBounded(a as real * r, a);
  }

  /** A value `p` with `p * m == e * 100` for `0 <= e <= m` is a percentage. */
  lemma PercentageOf(p: real, m: real, e: real)
    requires m > 0.0 && 0.0 <= e <= m && p * m == e * 100.0
    ensures 0.0 <= p <= 100.0
  {
  }
}
