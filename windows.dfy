/**
 * Sliding windows over recent values: JavaScript's `slice(-n)` and the arithmetic mean the
 * signal conditioner takes over its window of count-rate samples.
 */
module Windows {

  /** `s.slice(-n)`: the last n elements, all of `s` when it is shorter, and all of it for n = 0. */
  function Tail<T>(s: seq<T>, n: nat): (r: seq<T>)
    ensures 0 < n ==> |r| == if |s| < n then |s| else n
    ensures n == 0 ==> r == s
    ensures r == s[|s| - |r|..]
  {
    if n == 0 || |s| <= n then s else s[|s| - n..]
  }

  /** A sequence at least n long keeps exactly its last n elements. */
  lemma TailOfLonger<T>(s: seq<T>, n: nat)
    requires 0 < n <= |s|
    ensures Tail(s, n) == s[|s| - n..]
  {
  }

  /** The last n elements of x + y lie in y when y alone holds at least n. */
  lemma TailOfSuffix<T>(x: seq<T>, y: seq<T>, n: nat)
    requires 0 < n <= |y|
    ensures Tail(x + y, n) == Tail(y, n)
  {
    assert (x + y)[|x| + |y| - n..] == y[|y| - n..];
  }

  /** Keeping n - 1 and appending one equals appending and keeping n (for n of at least 2). */
  lemma TailAppend<T>(s: seq<T>, x: T, n: nat)
    requires 2 <= n
    ensures Tail(s, n - 1) + [x] == Tail(s + [x], n)
  {
    if |s| > n - 1 {
      assert (s + [x])[|s| + 1 - n..] == s[|s| - (n - 1)..] + [x];
    }
  }

  /** Trimming before appending a suffix does not change what the final trim keeps. */
  lemma TailTail<T>(s: seq<T>, u: seq<T>, n: nat)
    requires 0 < n
    ensures Tail(Tail(s, n) + u, n) == Tail(s + u, n)
  {
    if |s| > n {
      var k := |s| - n;
      calc {
        Tail(Tail(s, n) + u, n);
        { TailOfLonger(s, n); }
        Tail(s[k..] + u, n);
        { TailOfSuffix(s[..k], s[k..] + u, n); }
        Tail(s[..k] + (s[k..] + u), n);
        { assert s[..k] + (s[k..] + u) == s + u; }
        Tail(s + u, n);
      }
    }
  }

  /** The sum `reduce((a, b) => a + b, 0)` computes, from the first element to the last. */
  function Sum(s: seq<nat>): nat {
    if s == [] then 0 else Sum(s[..|s| - 1]) + s[|s| - 1]
  }

  function Mean(s: seq<nat>): real
    requires |s| > 0
  {
    Sum(s) as real / |s| as real
  }

  function Minimum(s: seq<nat>): (m: nat)
    requires |s| > 0
    ensures m in s && forall i :: 0 <= i < |s| ==> m <= s[i]
  {
    if |s| == 1 then s[0]
    else
      var m := Minimum(s[..|s| - 1]);
      if s[|s| - 1] < m then s[|s| - 1] else m
  }

  function Maximum(s: seq<nat>): (m: nat)
    requires |s| > 0
    ensures m in s && forall i :: 0 <= i < |s| ==> s[i] <= m
  {
    if |s| == 1 then s[0]
    else
      var m := Maximum(s[..|s| - 1]);
      if s[|s| - 1] > m then s[|s| - 1] else m
  }

  /** A sum of samples each at least lo is at least |s| times lo. */
  lemma {:induction false} SumAtLeast(s: seq<nat>, lo: real)
    requires forall i :: 0 <= i < |s| ==> lo <= s[i] as real
    ensures |s| as real * lo <= Sum(s) as real
    decreases s
  {
    if s != [] {
      var p := s[..|s| - 1];
      SumAtLeast(p, lo);
      var n := |p| as real;
      assert |s| as real == n + 1.0;
      Distribute(n, lo);
    }
  }

  /** A sum of samples each at most hi is at most |s| times hi. */
  lemma {:induction false} SumAtMost(s: seq<nat>, hi: real)
    requires forall i :: 0 <= i < |s| ==> s[i] as real <= hi
    ensures Sum(s) as real <= |s| as real * hi
    decreases s
  {
    if s != [] {
      var p := s[..|s| - 1];
      SumAtMost(p, hi);
      var n := |p| as real;
      assert |s| as real == n + 1.0;
      Distribute(n, hi);
    }
  }

  lemma Distribute(n: real, a: real)
    ensures (n + 1.0) * a == n * a + a
  {
  }

  lemma QuotientAbove(a: real, total: real, n: real)
    requires 0.0 < n && n * a <= total
    ensures a <= total / n
  {
    var q := total / n;
    assert n * q == total;
    if q < a {
      assert n * q < n * a;
    }
  }

  lemma QuotientBelow(b: real, total: real, n: real)
    requires 0.0 < n && total <= n * b
    ensures total / n <= b
  {
    var q := total / n;
    assert n * q == total;
    if b < q {
      assert n * b < n * q;
    }
  }

  lemma MeanAtLeast(s: seq<nat>, lo: real)
    requires |s| > 0 && forall i :: 0 <= i < |s| ==> lo <= s[i] as real
    ensures lo <= Mean(s)
  {
    SumAtLeast(s, lo);
    QuotientAbove(lo, Sum(s) as real, |s| as real);
  }

  lemma MeanAtMost(s: seq<nat>, hi: real)
    requires |s| > 0 && forall i :: 0 <= i < |s| ==> s[i] as real <= hi
    ensures Mean(s) <= hi
  {
    SumAtMost(s, hi);
    QuotientBelow(hi, Sum(s) as real, |s| as real);
  }

  /** The mean of a non-empty window lies between its smallest and its largest sample. */
  lemma MeanBounds(s: seq<nat>)
    requires |s| > 0
    ensures Minimum(s) as real <= Mean(s) <= Maximum(s) as real
  {
    MeanAtLeast(s, Minimum(s) as real);
    MeanAtMost(s, Maximum(s) as real);
  }
}
