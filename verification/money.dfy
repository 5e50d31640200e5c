/** Amounts of money are reals; sums are taken left to right, as Python's sum() does. */
module Money {

  function Min(a: real, b: real): real { if a <= b then a else b }

  function Max(a: real, b: real): real { if a >= b then a else b }

  /** The sum of f over s. */
  function SumOf<T>(s: seq<T>, f: T -> real): real
  {
    if s == [] then 0.0 else SumOf(s[..|s| - 1], f) + f(s[|s| - 1])
  }

  lemma SumOfAppend<T>(s: seq<T>, x: T, f: T -> real)
    ensures SumOf(s + [x], f) == SumOf(s, f) + f(x)
  {
    assert (s + [x])[..|s|] == s;
  }

  lemma {:induction false} SumOfNonNegative<T>(s: seq<T>, f: T -> real)
    requires forall i :: 0 <= i < |s| ==> f(s[i]) >= 0.0
    ensures SumOf(s, f) >= 0.0
  {
    if s != [] {
      SumOfNonNegative(s[..|s| - 1], f);
    }
  }

  lemma {:induction false} SumOfPositive<T>(s: seq<T>, f: T -> real)
    requires s != []
    requires forall i :: 0 <= i < |s| ==> f(s[i]) > 0.0
    ensures SumOf(s, f) > 0.0
  {
    SumOfNonNegative(s[..|s| - 1], f);
  }

  /** Replacing one element changes the sum by the difference of the two terms. */
  lemma {:induction false} SumOfUpdate<T>(s: seq<T>, k: nat, x: T, f: T -> real)
    requires k < |s|
    ensures SumOf(s[k := x], f) == SumOf(s, f) - f(s[k]) + f(x)
  {
    var n := |s| - 1;
    if k == n {
      assert s[k := x][..n] == s[..n];
    } else {
      SumOfUpdate(s[..n], k, x, f);
      assert s[k := x][..n] == s[..n][k := x];
    }
  }

  /** Terms bounded above by `bound` sum to at most |s| times the bound. */
  lemma {:induction false} SumOfAtMost<T>(s: seq<T>, f: T -> real, bound: real)
    requires forall i :: 0 <= i < |s| ==> f(s[i]) <= bound
    ensures SumOf(s, f) <= |s| as real * bound
  {
    if s != [] {
      SumOfAtMost(s[..|s| - 1], f, bound);
    }
  }

  /** With non-negative terms, no single term exceeds the sum. */
  lemma {:induction false} SumOfDominates<T>(s: seq<T>, f: T -> real, k: nat)
    requires k < |s|
    requires forall i :: 0 <= i < |s| ==> f(s[i]) >= 0.0
    ensures f(s[k]) <= SumOf(s, f)
  {
    var n := |s| - 1;
    SumOfNonNegative(s[..n], f);
    if k < n {
      SumOfDominates(s[..n], f, k);
    }
  }

  lemma ProductNonNegative(a: real, b: real)
    requires a >= 0.0 && b >= 0.0
    ensures a * b >= 0.0
  {
  }
}
