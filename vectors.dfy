/** Index-aligned vector arithmetic over real sequences: the few numpy array
    operations (`+`, `-`, `np.multiply`, `np.dot`, `sum`, `c * np.ones(n)`)
    that the pricing model is written in. Floating point is replaced by exact
    real arithmetic. */
module Vectors {

  /** `a + b` on two arrays of the same shape. */
  function Add(a: seq<real>, b: seq<real>): (r: seq<real>)
    requires |a| == |b|
    ensures |r| == |a|
  {
    seq(|a|, i requires 0 <= i < |a| => a[i] + b[i])
  }

  /** `a - b` on two arrays of the same shape. */
  function Sub(a: seq<real>, b: seq<real>): (r: seq<real>)
    requires |a| == |b|
    ensures |r| == |a|
  {
    seq(|a|, i requires 0 <= i < |a| => a[i] - b[i])
  }

  /** `np.multiply(a, b)`: the element-wise product. */
  function Mul(a: seq<real>, b: seq<real>): (r: seq<real>)
    requires |a| == |b|
    ensures |r| == |a|
  {
    seq(|a|, i requires 0 <= i < |a| => a[i] * b[i])
  }

  /** `c * np.ones(n)`; `np.zeros(n)` is `Fill(n, 0.0)`. */
  function Fill(n: nat, c: real): (r: seq<real>)
    ensures |r| == n
  {
    seq(n, i => c)
  }

  /** `np.zeros(n)`. */
  function Zeros(n: nat): seq<real>
  {
    Fill(n, 0.0)
  }

  /** `np.dot(a, b)` of two vectors: the sum of the products of aligned entries. */
  function Dot(a: seq<real>, b: seq<real>): real
    requires |a| == |b|
  {
    if |a| == 0 then 0.0 else a[0] * b[0] + Dot(a[1..], b[1..])
  }

  /** Python's built-in `sum` over an array. */
  function Sum(a: seq<real>): real
  {
    if |a| == 0 then 0.0 else a[0] + Sum(a[1..])
  }

  /** Scaling one side of a dot product scales the product. */
  lemma {:induction false} DotScaleLeft(k: real, a: seq<real>, a': seq<real>, b: seq<real>)
    requires |a| == |a'| == |b|
    requires forall i :: 0 <= i < |a| ==> a'[i] == k * a[i]
    ensures Dot(a', b) == k * Dot(a, b)
  {
    if |a| > 0 {
      DotScaleLeft(k, a[1..], a'[1..], b[1..]);
    }
  }

  /** The dot product is symmetric. */
  lemma {:induction false} DotCommutes(a: seq<real>, b: seq<real>)
    requires |a| == |b|
    ensures Dot(a, b) == Dot(b, a)
  {
    if |a| > 0 {
      DotCommutes(a[1..], b[1..]);
    }
  }

  /** A dot product with a zero vector on the left is zero. */
  lemma {:induction false} DotZeroLeft(a: seq<real>, b: seq<real>)
    requires |a| == |b|
    requires forall i :: 0 <= i < |a| ==> a[i] == 0.0
    ensures Dot(a, b) == 0.0
  {
    if |a| > 0 {
      DotZeroLeft(a[1..], b[1..]);
    }
  }

  /** The dot product distributes over a sum on the left. */
  lemma {:induction false} DotAddLeft(a: seq<real>, b: seq<real>, s: seq<real>, c: seq<real>)
    requires |a| == |b| == |s| == |c|
    requires forall i :: 0 <= i < |s| ==> s[i] == a[i] + b[i]
    ensures Dot(s, c) == Dot(a, c) + Dot(b, c)
  {
    if |a| > 0 {
      DotAddLeft(a[1..], b[1..], s[1..], c[1..]);
    }
  }

  /** The dot product distributes over a sum on the right. */
  lemma {:induction false} DotAddRight(a: seq<real>, b: seq<real>, c: seq<real>, s: seq<real>)
    requires |a| == |b| == |c| == |s|
    requires forall i :: 0 <= i < |s| ==> s[i] == b[i] + c[i]
    ensures Dot(a, s) == Dot(a, b) + Dot(a, c)
  {
    if |a| > 0 {
      DotAddRight(a[1..], b[1..], c[1..], s[1..]);
    }
  }

  /** The dot product is monotone in its left argument against a non-negative right one. */
  lemma {:induction false} DotMonoLeft(a: seq<real>, a': seq<real>, b: seq<real>)
    requires |a| == |a'| == |b|
    requires forall i :: 0 <= i < |a| ==> a[i] <= a'[i] && 0.0 <= b[i]
    ensures Dot(a, b) <= Dot(a', b)
  {
    if |a| > 0 {
      assert a[0] * b[0] <= a'[0] * b[0] by {
        assert 0.0 <= (a'[0] - a[0]) * b[0];
      }
      DotMonoLeft(a[1..], a'[1..], b[1..]);
    }
  }

  /** A dot product whose every term is non-positive is non-positive. */
  lemma {:induction false} DotNonposTerms(a: seq<real>, b: seq<real>)
    requires |a| == |b|
    requires forall i :: 0 <= i < |a| ==> a[i] * b[i] <= 0.0
    ensures Dot(a, b) <= 0.0
  {
    if |a| > 0 {
      DotNonposTerms(a[1..], b[1..]);
    }
  }

  /** If every term of a dot product is non-positive and the product is zero,
      every term is zero. */
  lemma {:induction false} DotZeroTerms(a: seq<real>, b: seq<real>)
    requires |a| == |b|
    requires forall i :: 0 <= i < |a| ==> a[i] * b[i] <= 0.0
    requires Dot(a, b) == 0.0
    ensures forall i :: 0 <= i < |a| ==> a[i] * b[i] == 0.0
  {
    if |a| > 0 {
      DotNonposTerms(a[1..], b[1..]);
      DotZeroTerms(a[1..], b[1..]);
      forall i | 0 <= i < |a|
        ensures a[i] * b[i] == 0.0
      {
        if i > 0 {
          assert a[i] == a[1..][i - 1] && b[i] == b[1..][i - 1];
        }
      }
    }
  }

  /** `sum` distributes over an element-wise sum. */
  lemma {:induction false} SumAdd(a: seq<real>, b: seq<real>, s: seq<real>)
    requires |a| == |b| == |s|
    requires forall i :: 0 <= i < |s| ==> s[i] == a[i] + b[i]
    ensures Sum(s) == Sum(a) + Sum(b)
  {
    if |a| > 0 {
      SumAdd(a[1..], b[1..], s[1..]);
    }
  }

  /** The sum of non-negative entries is non-negative. */
  lemma {:induction false} SumNonneg(a: seq<real>)
    requires forall i :: 0 <= i < |a| ==> 0.0 <= a[i]
    ensures 0.0 <= Sum(a)
  {
    if |a| > 0 {
      SumNonneg(a[1..]);
    }
  }
}
