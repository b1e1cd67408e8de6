/** Vectors and matrices over the reals, and the sums the mixture regressor
    accumulates. Sums are folds from the left, in the order std::accumulate
    and the source's `for` loops add their terms. */
module LinearAlgebra {

  type Vector = seq<real>
  type Matrix = seq<seq<real>>

  /** Sum of the entries, added left to right. */
  function Sum(s: seq<real>): real
    decreases |s|
  {
    if |s| == 0 then 0.0 else Sum(s[..|s| - 1]) + s[|s| - 1]
  }

  /** Inner product, accumulated left to right. */
  function Dot(a: Vector, b: Vector): real
    requires |a| == |b|
    decreases |a|
  {
    if |a| == 0 then 0.0 else Dot(a[..|a| - 1], b[..|b| - 1]) + a[|a| - 1] * b[|b| - 1]
  }

  /** One more step of the left-to-right accumulation of Dot. */
  lemma DotPrefix(a: Vector, b: Vector, k: nat)
    requires |a| == |b| && k < |a|
    ensures Dot(a[..k + 1], b[..k + 1]) == Dot(a[..k], b[..k]) + a[k] * b[k]
  {
    assert a[..k + 1][..k] == a[..k];
    assert b[..k + 1][..k] == b[..k];
  }

  predicate AllNonNegative(s: seq<real>)
  {
    forall i :: 0 <= i < |s| ==> s[i] >= 0.0
  }

  lemma SumAppend(s: seq<real>, x: real)
    ensures Sum(s + [x]) == Sum(s) + x
  {
    assert (s + [x])[..|s|] == s;
  }

  lemma {:induction false} SumNonNegative(s: seq<real>)
    requires AllNonNegative(s)
    ensures Sum(s) >= 0.0
  {
    if |s| > 0 {
      SumNonNegative(s[..|s| - 1]);
    }
  }

  /** With no negative entry, each entry is at most the sum. */
  lemma {:induction false} SumAtLeastEntry(s: seq<real>, k: nat)
    requires AllNonNegative(s)
    requires k < |s|
    ensures s[k] <= Sum(s)
  {
    var n := |s| - 1;
    if k < n {
      SumAtLeastEntry(s[..n], k);
    } else {
      SumNonNegative(s[..n]);
    }
  }

  /** With no negative entry, every entry is at most the sum. */
  lemma SumBoundsEntries(s: seq<real>)
    requires AllNonNegative(s)
    ensures forall k :: 0 <= k < |s| ==> s[k] <= Sum(s)
  {
    forall k | 0 <= k < |s| {
      SumAtLeastEntry(s, k);
    }
  }

  lemma NonNegativeProduct(a: real, b: real)
    requires a >= 0.0 && b >= 0.0
    ensures a * b >= 0.0
  {
  }

  lemma ZeroFactor(a: real, b: real)
    requires a == 0.0 || b == 0.0
    ensures a * b == 0.0
  {
  }

  /** A share a of a positive total t, taken as a * (1 / t), lies in [0, 1]. */
  lemma FractionOfTotal(a: real, t: real)
    requires 0.0 <= a <= t && t > 0.0
    ensures 0.0 <= a * (1.0 / t) <= 1.0
  {
    assert t * (1.0 / t) == 1.0;
    assert a * (1.0 / t) <= t * (1.0 / t);
  }

  lemma PositiveProduct(a: real, b: real)
    requires a > 0.0 && b > 0.0
    ensures a * b > 0.0
  {
  }

  /** a / t for 0 <= a < t lies in [0, 1), and is positive when a is. */
  lemma StrictFraction(a: real, t: real)
    requires 0.0 <= a < t
    ensures 0.0 <= a / t < 1.0
    ensures a > 0.0 ==> a / t > 0.0
  {
    assert (a / t) * t == a;
  }

  /** A fixed positive amount is a smaller share of a larger total. */
  lemma FractionDecreasing(p: real, x: real, y: real)
    requires p > 0.0 && 0.0 < x < y
    ensures p / y < p / x
  {
    var q, r := p / y, p / x;
    assert q * y == p && r * x == p;
    assert q > 0.0;
    assert q * x < q * y;
    assert q * x < r * x;
  }

  /** a / t for 0 < a <= t lies in (0, 1]. */
  lemma FractionAtMostOne(a: real, t: real)
    requires 0.0 < a <= t
    ensures 0.0 < a / t <= 1.0
  {
    assert (a / t) * t == a;
  }

  /** Multiplying every entry by c multiplies the sum by c. */
  lemma {:induction false} SumScaled(a: seq<real>, b: seq<real>, c: real)
    requires |a| == |b|
    requires forall i :: 0 <= i < |a| ==> b[i] == a[i] * c
    ensures Sum(b) == Sum(a) * c
  {
    if |a| > 0 {
      SumScaled(a[..|a| - 1], b[..|b| - 1], c);
    }
  }

  /** Overwriting one entry changes the sum by the difference. */
  lemma {:induction false} SumUpdate(s: seq<real>, k: nat, v: real)
    requires k < |s|
    ensures Sum(s[k := v]) == Sum(s) - s[k] + v
  {
    var n := |s| - 1;
    if k == n {
      assert s[k := v][..n] == s[..n];
    } else {
      assert s[k := v][..n] == s[..n][k := v];
      SumUpdate(s[..n], k, v);
    }
  }

  /** A combination with non-negative coefficients r of values in [lo, hi]
      lies between lo * Sum(r) and hi * Sum(r). */
  lemma {:induction false} DotBetween(w: Vector, r: Vector, lo: real, hi: real)
    requires |w| == |r|
    requires forall i :: 0 <= i < |w| ==> lo <= w[i] <= hi
    requires AllNonNegative(r)
    ensures lo * Sum(r) <= Dot(w, r) <= hi * Sum(r)
  {
    if |w| > 0 {
      var n := |w| - 1;
      DotBetween(w[..n], r[..n], lo, hi);
      NonNegativeProduct(w[n] - lo, r[n]);
      NonNegativeProduct(hi - w[n], r[n]);
    }
  }

  /** A combination with non-negative coefficients summing to 1 lies between
      the least and the greatest of the values combined. */
  lemma ConvexCombinationBounds(w: Vector, r: Vector)
    requires |w| == |r| && |w| > 0
    requires AllNonNegative(r) && Sum(r) == 1.0
    ensures SeqMin(w) <= Dot(w, r) <= SeqMax(w)
  {
    DotBetween(w, r, SeqMin(w), SeqMax(w));
  }

  /** The smallest entry, found by a left-to-right scan. */
  function SeqMin(s: seq<real>): (m: real)
    requires |s| > 0
    ensures forall i :: 0 <= i < |s| ==> m <= s[i]
    ensures exists i :: 0 <= i < |s| && m == s[i]
    decreases |s|
  {
    if |s| == 1 then s[0]
    else
      var m := SeqMin(s[..|s| - 1]);
      if s[|s| - 1] < m then s[|s| - 1] else m
  }

  /** The largest entry, found by a left-to-right scan. */
  function SeqMax(s: seq<real>): (m: real)
    requires |s| > 0
    ensures forall i :: 0 <= i < |s| ==> s[i] <= m
    ensures exists i :: 0 <= i < |s| && m == s[i]
    decreases |s|
  {
    if |s| == 1 then s[0]
    else
      var m := SeqMax(s[..|s| - 1]);
      if m < s[|s| - 1] then s[|s| - 1] else m
  }

  /** The position std::max_element returns: it keeps the first entry and
      moves on only to a strictly greater one, so the result is the lowest
      index holding the maximum. */
  function ArgMax(s: seq<real>): (k: nat)
    requires |s| > 0
    ensures k < |s|
    ensures forall i :: 0 <= i < |s| ==> s[i] <= s[k]
    ensures forall i :: 0 <= i < k ==> s[i] < s[k]
    decreases |s|
  {
    if |s| == 1 then 0
    else
      var k := ArgMax(s[..|s| - 1]);
      if s[k] < s[|s| - 1] then |s| - 1 else k
  }

  function VecAdd(a: Vector, b: Vector): (r: Vector)
    requires |a| == |b|
    ensures |r| == |a|
  {
    seq(|a|, i requires 0 <= i < |a| => a[i] + b[i])
  }

  function VecSub(a: Vector, b: Vector): (r: Vector)
    requires |a| == |b|
    ensures |r| == |a|
  {
    seq(|a|, i requires 0 <= i < |a| => a[i] - b[i])
  }

  function VecScale(c: real, v: Vector): (r: Vector)
    ensures |r| == |v|
  {
    seq(|v|, i requires 0 <= i < |v| => c * v[i])
  }

  ghost predicate IsMatrix(m: Matrix, rows: nat, cols: nat)
  {
    |m| == rows && forall i :: 0 <= i < rows ==> |m[i]| == cols
  }

  ghost predicate IsSquare(m: Matrix)
  {
    IsMatrix(m, |m|, |m|)
  }

  ghost predicate Symmetric(m: Matrix)
    requires IsSquare(m)
  {
    forall i, j :: 0 <= i < |m| && 0 <= j < |m| ==> m[i][j] == m[j][i]
  }

  /** Same number of rows, and row by row the same length. */
  ghost predicate SameShape(a: Matrix, b: Matrix)
  {
    |a| == |b| && forall i :: 0 <= i < |a| ==> |a[i]| == |b[i]|
  }

  function MatAdd(a: Matrix, b: Matrix): (r: Matrix)
    requires SameShape(a, b)
    ensures SameShape(r, a)
  {
    seq(|a|, i requires 0 <= i < |a| => VecAdd(a[i], b[i]))
  }

  function MatSub(a: Matrix, b: Matrix): (r: Matrix)
    requires SameShape(a, b)
    ensures SameShape(r, a)
  {
    seq(|a|, i requires 0 <= i < |a| => VecSub(a[i], b[i]))
  }

  function MatScale(m: Matrix, c: real): (r: Matrix)
    ensures SameShape(r, m)
  {
    seq(|m|, i requires 0 <= i < |m| => VecScale(c, m[i]))
  }

  /** u * v^T */
  function Outer(u: Vector, v: Vector): (r: Matrix)
    ensures IsMatrix(r, |u|, |v|)
  {
    seq(|u|, i requires 0 <= i < |u| => VecScale(u[i], v))
  }

  function Identity(n: nat): (r: Matrix)
    ensures IsMatrix(r, n, n)
  {
    seq(n, i requires 0 <= i < n => seq(n, j requires 0 <= j < n => if i == j then 1.0 else 0.0))
  }

  function MatVec(m: Matrix, v: Vector): (r: Vector)
    requires IsMatrix(m, |m|, |v|)
    ensures |r| == |m|
  {
    seq(|m|, i requires 0 <= i < |m| => Dot(m[i], v))
  }

  /** d^T * m * d */
  function QuadForm(d: Vector, m: Matrix): real
    requires IsMatrix(m, |d|, |d|)
  {
    Dot(d, MatVec(m, d))
  }
}
