/** Real vectors as sequences: the arithmetic with which the coefficient
    tables are combined and checked. All values are exact reals. */
module Vectors {

  /** Sum of the entries. */
  function Sum(s: seq<real>): (r: real) {
    if |s| == 0 then 0.0 else s[0] + Sum(s[1..])
  }

  /** Dot product over the common prefix of `a` and `b`. A row of a strictly
      lower-triangular stage matrix is shorter than the node vector; the
      entries it leaves out are the zeros of the upper triangle. */
  function Dot(a: seq<real>, b: seq<real>): (r: real) {
    if |a| == 0 || |b| == 0 then 0.0 else a[0] * b[0] + Dot(a[1..], b[1..])
  }

  /** Elementwise difference of two tensors of the same length (`a - b`). */
  function Sub(a: seq<real>, b: seq<real>): (r: seq<real>)
    requires |a| == |b|
    ensures |r| == |a|
    ensures forall i :: 0 <= i < |r| ==> r[i] == a[i] - b[i]
  {
    seq(|a|, i requires 0 <= i < |a| => a[i] - b[i])
  }

  /** Elementwise (Hadamard) product. */
  function Had(a: seq<real>, b: seq<real>): (r: seq<real>)
    requires |a| == |b|
    ensures |r| == |a|
  {
    seq(|a|, i requires 0 <= i < |a| => a[i] * b[i])
  }

  /** Matrix-vector product, one dot product per row. */
  function MatVec(rows: seq<seq<real>>, v: seq<real>): (r: seq<real>)
    ensures |r| == |rows|
  {
    seq(|rows|, j requires 0 <= j < |rows| => Dot(rows[j], v))
  }

  /** The vector of `n` ones. */
  function Ones(n: nat): (r: seq<real>)
    ensures |r| == n
  {
    seq(n, _ => 1.0)
  }

  /** `x` to the natural power `n`. */
  function Power(x: real, n: nat): (r: real) {
    if n == 0 then 1.0 else x * Power(x, n - 1)
  }

  /** `x` lies within `tol` of `y`; with `tol == 0.0` this is `x == y`. */
  predicate Within(x: real, y: real, tol: real) {
    -tol <= x - y <= tol
  }

  /** Summing is linear over an elementwise difference. */
  lemma {:induction false} SumSub(a: seq<real>, b: seq<real>)
    requires |a| == |b|
    ensures Sum(Sub(a, b)) == Sum(a) - Sum(b)
  {
    if |a| > 0 {
      assert Sub(a, b)[1..] == Sub(a[1..], b[1..]);
      SumSub(a[1..], b[1..]);
    }
  }

  /** The dot product is linear in its first argument over a difference. */
  lemma {:induction false} DotSub(a: seq<real>, b: seq<real>, v: seq<real>)
    requires |a| == |b|
    ensures Dot(Sub(a, b), v) == Dot(a, v) - Dot(b, v)
  {
    if |a| > 0 && |v| > 0 {
      assert Sub(a, b)[1..] == Sub(a[1..], b[1..]);
      DotSub(a[1..], b[1..], v[1..]);
    }
  }

  /** The dot product of a vector with the ones vector is its sum. */
  lemma {:induction false} DotOnes(b: seq<real>, n: nat)
    requires |b| <= n
    ensures Dot(b, Ones(n)) == Sum(b)
  {
    if |b| > 0 {
      assert Ones(n)[1..] == Ones(n - 1);
      DotOnes(b[1..], n - 1);
    }
  }

  /** Subtracting a difference gives back the subtrahend. */
  lemma SubSub(a: seq<real>, b: seq<real>)
    requires |a| == |b|
    ensures Sub(a, Sub(a, b)) == b
  {
  }

  /** The sum splits off the last entry. */
  lemma {:induction false} SumLast(s: seq<real>)
    requires |s| > 0
    ensures Sum(s) == Sum(s[..|s| - 1]) + s[|s| - 1]
  {
    if |s| > 1 {
      assert s[1..][..|s| - 2] == s[..|s| - 1][1..];
      SumLast(s[1..]);
    }
  }
}
