/** The incremental Gaussian-mixture regressor: an append-only set of
    clusters, each with a mean, a covariance, a cached inverse covariance, a
    scalar value ("weight"), a mixing weight ("probability"), an accumulated
    responsibility ("sprobability") and a density normalisation. New
    observations either spawn a cluster (novelty) or pull the cluster with
    the greatest evidence towards them. */
module Mixture {
  import opened LinearAlgebra

  type PosReal = r: real | r > 0.0 witness 1.0

  /** The literal the source uses for pi. */
  const PiLiteral: real := 3.14159265

  /** The floating-point numerics of the source, left uninterpreted: only
      the sign facts carried by the result types are assumed of them. The
      positive sqrtOfNorm leaves out the zero covariance, whose normalisation
      is infinite in float. */
  datatype Numerics = Numerics(
    exp: real -> PosReal,           // std::exp
    pow: (real, real) -> PosReal,   // std::pow, applied only to the base 2 * pi
    sqrtOfNorm: Matrix -> PosReal,  // std::sqrt(m.norm())
    inverse: Matrix -> Matrix)      // Eigen's m.inverse()

  /** Inverting an n x n matrix gives an n x n matrix. */
  ghost predicate WellFormed(nums: Numerics)
  {
    forall m: Matrix {:trigger nums.inverse(m)} :: IsSquare(m) ==> IsMatrix(nums.inverse(m), |m|, |m|)
  }

  /** The seven parallel per-cluster arrays and the cached 1 / (2 pi)^(D/2). */
  datatype MixtureState = MixtureState(
    means: seq<Vector>,
    covariances: seq<Matrix>,
    invCovariances: seq<Matrix>,
    weights: seq<real>,
    probabilities: seq<real>,
    sprobabilities: seq<real>,
    normalizations: seq<real>,
    invTwoPiD: real)
  {
    function Size(): nat { |weights| }

    /** The input dimension, fixed by the first cluster. */
    function Dim(): nat { if |means| == 0 then 0 else |means[0]| }
  }

  ghost predicate SameLengths(s: MixtureState)
  {
    var n := s.Size();
    && |s.means| == n && |s.covariances| == n && |s.invCovariances| == n
    && |s.probabilities| == n && |s.sprobabilities| == n && |s.normalizations| == n
  }

  /** What every live cluster c satisfies, for input dimension d. */
  ghost predicate ValidCluster(s: MixtureState, c: nat, d: nat)
    requires SameLengths(s) && c < s.Size()
  {
    && |s.means[c]| == d
    && IsMatrix(s.covariances[c], d, d) && Symmetric(s.covariances[c])
    && IsMatrix(s.invCovariances[c], d, d)
    && 0.0 < s.probabilities[c] <= 1.0
    && s.normalizations[c] > 0.0
  }

  /** What every reachable state satisfies. */
  ghost predicate ValidState(s: MixtureState)
  {
    && SameLengths(s)
    && (forall c :: 0 <= c < s.Size() ==> ValidCluster(s, c, s.Dim()))
    && (forall c :: 0 <= c < s.Size() ==> s.sprobabilities[c] >= 1.0)
    && (s.Size() > 0 ==> s.invTwoPiD > 0.0)
  }

  /** An input the mixture can take: any input while it is empty, else one
      of its dimension. */
  predicate Accepts(s: MixtureState, x: Vector)
  {
    s.Size() == 0 || |x| == s.Dim()
  }

  /** p(x | cluster c): normalisation times exp(-1/2 (x - mean)^T inv (x - mean)). */
  function ProbabilityOfInput(s: MixtureState, nums: Numerics, c: nat, x: Vector): (p: real)
    requires ValidState(s) && c < s.Size() && |x| == s.Dim()
    ensures p > 0.0
  {
    assert ValidCluster(s, c, s.Dim());
    var d := VecSub(x, s.means[c]);
    s.normalizations[c] * nums.exp(-0.5 * QuadForm(d, s.invCovariances[c]))
  }

  /** Raw evidence p(x | c) * p(c) of every cluster. It takes no target:
      the source passes one along but never uses what it computes from it. */
  function Evidences(s: MixtureState, nums: Numerics, x: Vector): (e: seq<real>)
    requires ValidState(s) && Accepts(s, x)
    ensures |e| == s.Size()
  {
    seq(s.Size(), c requires 0 <= c < s.Size() =>
      assert ValidCluster(s, c, s.Dim());
      ProbabilityOfInput(s, nums, c, x) * s.probabilities[c])
  }

  lemma EvidenceSumPositive(s: MixtureState, nums: Numerics, x: Vector)
    requires ValidState(s) && Accepts(s, x)
    ensures forall c :: 0 <= c < s.Size() ==> Evidences(s, nums, x)[c] > 0.0
    ensures AllNonNegative(Evidences(s, nums, x))
    ensures s.Size() > 0 ==> Sum(Evidences(s, nums, x)) > 0.0
  {
    var e := Evidences(s, nums, x);
    forall c | 0 <= c < s.Size()
      ensures e[c] > 0.0
    {
      assert ValidCluster(s, c, s.Dim());
      var p := ProbabilityOfInput(s, nums, c, x);
      assert e[c] == p * s.probabilities[c];
      PositiveProduct(p, s.probabilities[c]);
    }
    if s.Size() > 0 {
      SumAtLeastEntry(e, 0);
    }
  }

  /** Each evidence times the reciprocal of their sum. */
  function Responsibilities(e: seq<real>): (r: seq<real>)
    requires |e| == 0 || Sum(e) != 0.0
    ensures |r| == |e|
  {
    seq(|e|, c requires 0 <= c < |e| => e[c] * (1.0 / Sum(e)))
  }

  /** Normalised non-negative evidences are a probability distribution. */
  lemma ResponsibilitiesDistribution(e: seq<real>)
    requires AllNonNegative(e) && Sum(e) > 0.0
    ensures AllNonNegative(Responsibilities(e))
    ensures forall c :: 0 <= c < |e| ==> Responsibilities(e)[c] <= 1.0
    ensures Sum(Responsibilities(e)) == 1.0
  {
    ResponsibilitiesBounded(e);
    ResponsibilitiesTotal(e);
  }

  lemma ResponsibilitiesBounded(e: seq<real>)
    requires AllNonNegative(e) && Sum(e) > 0.0
    ensures forall c :: 0 <= c < |e| ==> 0.0 <= Responsibilities(e)[c] <= 1.0
  {
    forall c | 0 <= c < |e|
      ensures 0.0 <= Responsibilities(e)[c] <= 1.0
    {
      ResponsibilityBounded(e, c);
    }
  }

  lemma ResponsibilityBounded(e: seq<real>, c: nat)
    requires AllNonNegative(e) && Sum(e) > 0.0 && c < |e|
    ensures 0.0 <= Responsibilities(e)[c] <= 1.0
  {
    SumAtLeastEntry(e, c);
    FractionOfTotal(e[c], Sum(e));
  }

  lemma ResponsibilitiesTotal(e: seq<real>)
    requires Sum(e) > 0.0
    ensures Sum(Responsibilities(e)) == 1.0
  {
    var r := Responsibilities(e);
    var t := Sum(e);
    assert forall c :: 0 <= c < |e| ==> r[c] == e[c] * (1.0 / t);
    SumScaled(e, r, 1.0 / t);
    assert t * (1.0 / t) == 1.0;
  }

  /** The estimate value() returns: the responsibility-weighted blend. */
  function Predict(s: MixtureState, nums: Numerics, x: Vector): real
    requires ValidState(s) && Accepts(s, x)
  {
    EvidenceSumPositive(s, nums, x);
    Dot(s.weights, Responsibilities(Evidences(s, nums, x)))
  }

  /** A prediction lies between the least and the greatest stored value. */
  lemma PredictionBounds(s: MixtureState, nums: Numerics, x: Vector)
    requires ValidState(s) && Accepts(s, x) && s.Size() > 0
    ensures SeqMin(s.weights) <= Predict(s, nums, x) <= SeqMax(s.weights)
  {
    var e := Evidences(s, nums, x);
    EvidenceSumPositive(s, nums, x);
    ResponsibilitiesDistribution(e);
    ConvexCombinationBounds(s.weights, Responsibilities(e));
  }

  /** sum_sp: 1 for an empty mixture, else the total accumulated responsibility. */
  function SumSp(s: MixtureState): (t: real)
    requires ValidState(s)
    ensures t >= 1.0
    ensures forall c :: 0 <= c < s.Size() ==> s.sprobabilities[c] <= t
  {
    if s.Size() == 0 then 1.0
    else
      SumBoundsEntries(s.sprobabilities);
      Sum(s.sprobabilities)
  }

  /** The novelty test: no cluster's evidence exceeds its normalisation
      scaled by the novelty parameter. */
  predicate IsNovel(e: seq<real>, normalizations: seq<real>, novelty: real)
    requires |normalizations| == |e|
  {
    forall c :: 0 <= c < |e| ==> e[c] <= normalizations[c] * novelty
  }

  /** Every pseudo-count multiplied by 1 / total. */
  function Rescaled(sprobabilities: seq<real>, total: real): (r: seq<real>)
    requires total != 0.0
    ensures |r| == |sprobabilities|
  {
    seq(|sprobabilities|, c requires 0 <= c < |sprobabilities| => sprobabilities[c] * (1.0 / total))
  }

  /** After the pushes and the rescaling loop of a creation, the mixing
      weights are the rescaled pseudo-counts followed by the new weight. */
  lemma RescaledThenPushed(sp: seq<real>, p: seq<real>, count: nat, total: real, last: real)
    requires total != 0.0 && |p| == count + 1 && count <= |sp|
    requires forall c :: 0 <= c < count ==> p[c] == sp[c] * (1.0 / total)
    requires p[count] == last
    ensures p == Rescaled(sp[..count], total) + [last]
  {
    var q := Rescaled(sp[..count], total) + [last];
    assert forall c :: 0 <= c < |p| ==> p[c] == q[c];
  }

  /** The state after x spawns a new cluster with value target. */
  function Created(s: MixtureState, nums: Numerics, varInitial: real, x: Vector, target: real): MixtureState
    requires ValidState(s)
  {
    Appended(s, nums, varInitial, x, target, SumSp(s))
  }

  /** The new cluster appended and the older mixing weights rescaled,
      sum_sp being sumSp. */
  function Appended(s: MixtureState, nums: Numerics, varInitial: real, x: Vector, target: real,
                    sumSp: real): MixtureState
    requires sumSp >= 1.0
  {
    var covariance := MatScale(Identity(|x|), varInitial);
    var invTwoPiD := 1.0 / nums.pow(2.0 * PiLiteral, |x| as real * 0.5);
    MixtureState(
      s.means + [x],
      s.covariances + [covariance],
      s.invCovariances + [nums.inverse(covariance)],
      s.weights + [target],
      Rescaled(s.sprobabilities, sumSp + 1.0) + [1.0 / sumSp],
      s.sprobabilities + [1.0],
      s.normalizations + [invTwoPiD / nums.sqrtOfNorm(covariance)],
      invTwoPiD)
  }

  /** proba: the normalised responsibility of cluster w for x. */
  function Responsibility(s: MixtureState, nums: Numerics, x: Vector, w: nat): (p: real)
    requires ValidState(s) && Accepts(s, x) && w < s.Size()
    ensures 0.0 < p <= 1.0
  {
    var e := Evidences(s, nums, x);
    EvidenceSumPositive(s, nums, x);
    ResponsibilitiesBounded(e);
    assert 1.0 / Sum(e) > 0.0;
    PositiveProduct(e[w], 1.0 / Sum(e));
    Responsibilities(e)[w]
  }

  /** The step size proba / (sprobability + proba). */
  function LearningFactor(sprobability: real, proba: real): (lf: real)
    requires sprobability >= 1.0 && 0.0 <= proba <= 1.0
    ensures 0.0 <= lf < 1.0
    ensures proba > 0.0 ==> lf > 0.0
  {
    StrictFraction(proba, sprobability + proba);
    proba / (sprobability + proba)
  }

  /** The more evidence a cluster has accumulated, the smaller its step. */
  lemma LearningFactorDecreasing(a: real, b: real, proba: real)
    requires 1.0 <= a < b && 0.0 < proba <= 1.0
    ensures LearningFactor(b, proba) < LearningFactor(a, proba)
  {
    FractionDecreasing(proba, a + proba, b + proba);
  }

  /** cov + lf * (d d^T - cov). */
  function CovarianceStep(cov: Matrix, d: Vector, lf: real): (r: Matrix)
    requires IsMatrix(cov, |d|, |d|)
    ensures IsMatrix(r, |d|, |d|)
  {
    MatAdd(cov, MatScale(MatSub(Outer(d, d), cov), lf))
  }

  /** The covariance step is the convex combination (1 - lf) cov + lf d d^T,
      so a symmetric covariance stays symmetric. */
  lemma CovarianceStepConvex(cov: Matrix, d: Vector, lf: real)
    requires IsMatrix(cov, |d|, |d|)
    ensures forall i, j :: 0 <= i < |d| && 0 <= j < |d| ==>
      CovarianceStep(cov, d, lf)[i][j] == (1.0 - lf) * cov[i][j] + lf * (d[i] * d[j])
    ensures Symmetric(cov) ==> Symmetric(CovarianceStep(cov, d, lf))
  {
    forall i, j | 0 <= i < |d| && 0 <= j < |d|
      ensures CovarianceStep(cov, d, lf)[i][j] == (1.0 - lf) * cov[i][j] + lf * (d[i] * d[j])
    {
      CovarianceStepEntry(cov, d, lf, i, j);
    }
    if Symmetric(cov) {
      var r := CovarianceStep(cov, d, lf);
      forall i, j | 0 <= i < |d| && 0 <= j < |d|
        ensures r[i][j] == r[j][i]
      {
        CovarianceStepEntry(cov, d, lf, i, j);
        CovarianceStepEntry(cov, d, lf, j, i);
        assert cov[i][j] == cov[j][i];
        assert d[i] * d[j] == d[j] * d[i];
      }
    }
  }

  lemma CovarianceStepEntry(cov: Matrix, d: Vector, lf: real, i: nat, j: nat)
    requires IsMatrix(cov, |d|, |d|) && i < |d| && j < |d|
    ensures CovarianceStep(cov, d, lf)[i][j] == (1.0 - lf) * cov[i][j] + lf * (d[i] * d[j])
  {
    assert Outer(d, d)[i][j] == d[i] * d[j];
    assert MatSub(Outer(d, d), cov)[i][j] == d[i] * d[j] - cov[i][j];
    assert MatScale(MatSub(Outer(d, d), cov), lf)[i][j] == lf * (d[i] * d[j] - cov[i][j]);
  }

  /** The state after the winner w is pulled towards (x, target). */
  function Reused(s: MixtureState, nums: Numerics, x: Vector, target: real, w: nat): MixtureState
    requires ValidState(s) && Accepts(s, x) && w < s.Size()
  {
    assert ValidCluster(s, w, s.Dim());
    WinnerStep(s, nums, x, target, w, Responsibility(s, nums, x, w), SumSp(s))
  }

  /** The update of cluster w for responsibility proba, sum_sp being sumSp. */
  function WinnerStep(s: MixtureState, nums: Numerics, x: Vector, target: real, w: nat,
                      proba: real, sumSp: real): MixtureState
    requires SameLengths(s) && w < s.Size()
    requires |x| == |s.means[w]| && IsMatrix(s.covariances[w], |x|, |x|)
    requires s.sprobabilities[w] >= 1.0 && 0.0 <= proba <= 1.0 && sumSp >= 1.0
  {
    var newSproba := s.sprobabilities[w] + proba;
    var lf := LearningFactor(s.sprobabilities[w], proba);
    var deltaMean := VecSub(x, s.means[w]);
    var deltaMeanFactor := VecScale(lf, deltaMean);
    var deltaPrevMean := VecSub(deltaMean, deltaMeanFactor);
    var covariance := CovarianceStep(s.covariances[w], deltaPrevMean, lf);
    MixtureState(
      s.means[w := VecAdd(s.means[w], deltaMeanFactor)],
      s.covariances[w := covariance],
      s.invCovariances[w := nums.inverse(covariance)],
      s.weights[w := s.weights[w] + lf * (target - s.weights[w])],
      s.probabilities[w := newSproba / (sumSp + proba)],
      s.sprobabilities[w := newSproba],
      s.normalizations[w := s.invTwoPiD / nums.sqrtOfNorm(covariance)],
      s.invTwoPiD)
  }

  /** The state setValue(x, target) leaves behind. */
  function SetValueSpec(s: MixtureState, nums: Numerics, varInitial: real, novelty: real,
                        x: Vector, target: real): MixtureState
    requires ValidState(s) && Accepts(s, x)
  {
    var e := Evidences(s, nums, x);
    if IsNovel(e, s.normalizations, novelty) then Created(s, nums, varInitial, x, target)
    else Reused(s, nums, x, target, ArgMax(e))
  }

  // ---------------------------------------------------------------------
  // Properties of setValue

  /** varInitial * I is a symmetric d x d matrix. */
  lemma ScaledIdentity(d: nat, v: real)
    ensures IsMatrix(MatScale(Identity(d), v), d, d)
    ensures Symmetric(MatScale(Identity(d), v))
  {
    var m := MatScale(Identity(d), v);
    forall i, j | 0 <= i < d && 0 <= j < d
      ensures m[i][j] == m[j][i]
    {
      assert m[i][j] == v * Identity(d)[i][j];
      assert m[j][i] == v * Identity(d)[j][i];
    }
  }

  lemma CreatedValid(s: MixtureState, nums: Numerics, varInitial: real, x: Vector, target: real)
    requires ValidState(s) && WellFormed(nums) && Accepts(s, x)
    ensures ValidState(Created(s, nums, varInitial, x, target))
    ensures Created(s, nums, varInitial, x, target).Dim() == |x|
  {
    var t := Created(s, nums, varInitial, x, target);
    var n, d := s.Size(), |x|;
    var covariance := MatScale(Identity(d), varInitial);
    ScaledIdentity(d, varInitial);
    assert IsSquare(covariance);
    assert IsMatrix(nums.inverse(covariance), d, d);
    var sumSp := SumSp(s);
    if n > 0 {
      assert ValidCluster(s, 0, s.Dim());
      assert t.means[0] == s.means[0];
    }
    assert t.Dim() == d;
    assert SameLengths(t);
    forall c | 0 <= c < n
      ensures ValidCluster(t, c, d)
    {
      assert ValidCluster(s, c, d);
      assert t.means[c] == s.means[c];
      assert t.covariances[c] == s.covariances[c];
      assert t.invCovariances[c] == s.invCovariances[c];
      assert t.normalizations[c] == s.normalizations[c];
      assert t.probabilities[c] == s.sprobabilities[c] * (1.0 / (sumSp + 1.0));
      FractionOfTotal(s.sprobabilities[c], sumSp + 1.0);
      PositiveProduct(s.sprobabilities[c], 1.0 / (sumSp + 1.0));
    }
    assert ValidCluster(t, n, d) by {
      assert t.probabilities[n] == 1.0 / sumSp;
      FractionOfTotal(1.0, sumSp);
      assert t.normalizations[n] == t.invTwoPiD / nums.sqrtOfNorm(covariance);
    }
    assert forall c :: 0 <= c < t.Size() ==> ValidCluster(t, c, t.Dim());
    assert forall c :: 0 <= c < t.Size() ==> t.sprobabilities[c] >= 1.0;
  }

  lemma ReusedValid(s: MixtureState, nums: Numerics, x: Vector, target: real, w: nat)
    requires ValidState(s) && WellFormed(nums) && Accepts(s, x) && w < s.Size()
    ensures ValidState(Reused(s, nums, x, target, w))
    ensures Reused(s, nums, x, target, w).Dim() == s.Dim()
  {
    var t := Reused(s, nums, x, target, w);
    var n, d := s.Size(), s.Dim();
    assert ValidCluster(s, w, d);
    var proba := Responsibility(s, nums, x, w);
    var lf := LearningFactor(s.sprobabilities[w], proba);
    var deltaMean := VecSub(x, s.means[w]);
    var deltaMeanFactor := VecScale(lf, deltaMean);
    var deltaPrevMean := VecSub(deltaMean, deltaMeanFactor);
    var covariance := CovarianceStep(s.covariances[w], deltaPrevMean, lf);
    CovarianceStepConvex(s.covariances[w], deltaPrevMean, lf);
    assert IsSquare(covariance);
    assert IsMatrix(nums.inverse(covariance), d, d);
    var newSproba := s.sprobabilities[w] + proba;
    var sumSp := SumSp(s);
    assert t.means[0] == if w == 0 then VecAdd(s.means[w], deltaMeanFactor) else s.means[0];
    assert ValidCluster(s, 0, d);
    assert t.Dim() == d;
    assert SameLengths(t);
    forall c | 0 <= c < n && c != w
      ensures ValidCluster(t, c, d)
    {
      assert ValidCluster(s, c, d);
      assert t.means[c] == s.means[c];
      assert t.covariances[c] == s.covariances[c];
      assert t.invCovariances[c] == s.invCovariances[c];
      assert t.normalizations[c] == s.normalizations[c];
      assert t.probabilities[c] == s.probabilities[c];
    }
    assert ValidCluster(t, w, d) by {
      assert t.covariances[w] == covariance;
      assert t.probabilities[w] == newSproba / (sumSp + proba);
      assert newSproba <= sumSp + proba;
      FractionAtMostOne(newSproba, sumSp + proba);
      assert t.normalizations[w] == s.invTwoPiD / nums.sqrtOfNorm(covariance);
    }
    assert forall c :: 0 <= c < t.Size() ==> ValidCluster(t, c, t.Dim());
    assert forall c :: 0 <= c < t.Size() ==> t.sprobabilities[c] >= 1.0;
  }

  /** setValue keeps the invariant, and the dimension is the first input's. */
  lemma SetValueValid(s: MixtureState, nums: Numerics, varInitial: real, novelty: real,
                      x: Vector, target: real)
    requires ValidState(s) && WellFormed(nums) && Accepts(s, x)
    ensures ValidState(SetValueSpec(s, nums, varInitial, novelty, x, target))
    ensures SetValueSpec(s, nums, varInitial, novelty, x, target).Dim() == |x|
  {
    var e := Evidences(s, nums, x);
    if IsNovel(e, s.normalizations, novelty) {
      CreatedValid(s, nums, varInitial, x, target);
    } else {
      ReusedValid(s, nums, x, target, ArgMax(e));
    }
  }

  /** A cluster is created exactly when the input is novel; an empty
      mixture always creates one; otherwise the number of clusters stays. */
  lemma NoveltyDecision(s: MixtureState, nums: Numerics, varInitial: real, novelty: real,
                        x: Vector, target: real)
    requires ValidState(s) && Accepts(s, x)
    ensures var t := SetValueSpec(s, nums, varInitial, novelty, x, target);
      && (t.Size() == s.Size() + 1 <==> IsNovel(Evidences(s, nums, x), s.normalizations, novelty))
      && (t.Size() == s.Size() + 1 || t.Size() == s.Size())
      && (s.Size() == 0 ==> t.Size() == 1)
  {
  }

  /** The decision does not depend on the target. */
  lemma NoveltyIgnoresTarget(s: MixtureState, nums: Numerics, varInitial: real, novelty: real,
                             x: Vector, target1: real, target2: real)
    requires ValidState(s) && Accepts(s, x)
    ensures SetValueSpec(s, nums, varInitial, novelty, x, target1).Size()
         == SetValueSpec(s, nums, varInitial, novelty, x, target2).Size()
  {
  }

  /** Creation appends one entry to each parallel array: the new cluster has
      mean x, covariance varInitial * I, value target, pseudo-count 1 and
      mixing weight 1 / sum_sp; every older cluster keeps its mean, value,
      covariances and pseudo-count, and its mixing weight becomes its
      pseudo-count over sum_sp + 1. */
  lemma CreationAppends(s: MixtureState, nums: Numerics, varInitial: real, novelty: real,
                        x: Vector, target: real)
    requires ValidState(s) && Accepts(s, x)
    requires IsNovel(Evidences(s, nums, x), s.normalizations, novelty)
    ensures var t := SetValueSpec(s, nums, varInitial, novelty, x, target);
      var n, sumSp := s.Size(), SumSp(s);
      && t.Size() == n + 1 && SameLengths(t)
      && t.means[..n] == s.means && t.means[n] == x
      && t.covariances[..n] == s.covariances
      && t.covariances[n] == MatScale(Identity(|x|), varInitial)
      && t.invCovariances[..n] == s.invCovariances
      && t.weights[..n] == s.weights && t.weights[n] == target
      && t.sprobabilities[..n] == s.sprobabilities && t.sprobabilities[n] == 1.0
      && t.normalizations[..n] == s.normalizations
      && t.probabilities[n] == 1.0 / sumSp
      && (forall c :: 0 <= c < n ==> t.probabilities[c] == s.sprobabilities[c] / (sumSp + 1.0))
  {
    var t := SetValueSpec(s, nums, varInitial, novelty, x, target);
    var n := s.Size();
    assert t.means[..n] == s.means;
    assert t.covariances[..n] == s.covariances;
    assert t.invCovariances[..n] == s.invCovariances;
    assert t.weights[..n] == s.weights;
    assert t.sprobabilities[..n] == s.sprobabilities;
    assert t.normalizations[..n] == s.normalizations;
  }

  /** The first update of an empty mixture leaves exactly one cluster, with
      mean x, value target, pseudo-count 1 and mixing weight 1. */
  lemma FirstUpdate(s: MixtureState, nums: Numerics, varInitial: real, novelty: real,
                    x: Vector, target: real)
    requires ValidState(s) && s.Size() == 0
    ensures var t := SetValueSpec(s, nums, varInitial, novelty, x, target);
      t.means == [x] && t.weights == [target] && t.sprobabilities == [1.0] && t.probabilities == [1.0]
  {
    var t := SetValueSpec(s, nums, varInitial, novelty, x, target);
    assert t.probabilities == Rescaled(s.sprobabilities, 2.0) + [1.0];
  }

  /** As written, creating a cluster in a non-empty mixture leaves mixing
      weights whose total S / (S + 1) + 1 / S exceeds 1, S being the total
      pseudo-count before the creation. */
  lemma CreationMixingTotal(s: MixtureState, nums: Numerics, varInitial: real, novelty: real,
                            x: Vector, target: real)
    requires ValidState(s) && Accepts(s, x) && s.Size() > 0
    requires IsNovel(Evidences(s, nums, x), s.normalizations, novelty)
    ensures var t := SetValueSpec(s, nums, varInitial, novelty, x, target);
      var total := SumSp(s);
      && total == Sum(s.sprobabilities)
      && Sum(t.probabilities) == total / (total + 1.0) + 1.0 / total
      && Sum(t.probabilities) > 1.0
  {
    var t := SetValueSpec(s, nums, varInitial, novelty, x, target);
    var total := SumSp(s);
    assert t.probabilities == Rescaled(s.sprobabilities, total + 1.0) + [1.0 / total];
    RescaledAppendSum(s.sprobabilities, total);
    MixingExceedsOne(total);
  }

  /** The sum of the rescaled pseudo-counts with 1 / total appended. */
  lemma RescaledAppendSum(sp: seq<real>, total: real)
    requires total == Sum(sp) && total >= 1.0
    ensures Sum(Rescaled(sp, total + 1.0) + [1.0 / total]) == total / (total + 1.0) + 1.0 / total
  {
    var rescaled := Rescaled(sp, total + 1.0);
    SumAppend(rescaled, 1.0 / total);
    SumScaled(sp, rescaled, 1.0 / (total + 1.0));
    assert total * (1.0 / (total + 1.0)) == total / (total + 1.0);
  }

  lemma MixingExceedsOne(total: real)
    requires total >= 1.0
    ensures total / (total + 1.0) + 1.0 / total > 1.0
  {
    var a := total + 1.0;
    assert total / a == 1.0 - 1.0 / a by {
      assert (total / a) * a == total;
      assert (1.0 - 1.0 / a) * a == a - 1.0;
    }
    FractionDecreasing(1.0, total, a);
  }

  /** On reuse, the winner is the lowest-indexed cluster of greatest raw
      evidence; the number of clusters is unchanged and every other cluster
      keeps all seven of its entries. */
  lemma ReuseTouchesOnlyWinner(s: MixtureState, nums: Numerics, varInitial: real, novelty: real,
                               x: Vector, target: real)
    requires ValidState(s) && Accepts(s, x)
    requires !IsNovel(Evidences(s, nums, x), s.normalizations, novelty)
    ensures var e := Evidences(s, nums, x);
      var t := SetValueSpec(s, nums, varInitial, novelty, x, target);
      var w := ArgMax(e);
      && s.Size() > 0 && w < s.Size()
      && (forall c :: 0 <= c < s.Size() ==> e[c] <= e[w])
      && (forall c :: 0 <= c < w ==> e[c] < e[w])
      && t.Size() == s.Size() && SameLengths(t)
      && (forall c :: 0 <= c < s.Size() && c != w ==>
            && t.means[c] == s.means[c] && t.covariances[c] == s.covariances[c]
            && t.invCovariances[c] == s.invCovariances[c] && t.weights[c] == s.weights[c]
            && t.probabilities[c] == s.probabilities[c]
            && t.sprobabilities[c] == s.sprobabilities[c]
            && t.normalizations[c] == s.normalizations[c])
  {
  }

  /** On reuse, the winner's pseudo-count grows by its responsibility
      proba in (0, 1]; the step lf = proba / new pseudo-count lies in
      (0, 1); its mixing weight becomes its share of the new total; its
      value moves towards the target without passing it; its mean moves by
      lf * (x - mean). */
  lemma ReuseUpdatesWinner(s: MixtureState, nums: Numerics, x: Vector, target: real, w: nat)
    requires ValidState(s) && Accepts(s, x) && w < s.Size()
    ensures var t := Reused(s, nums, x, target, w);
      var proba := Responsibility(s, nums, x, w);
      var lf := proba / t.sprobabilities[w];
      && SameLengths(t) && t.Size() == s.Size()
      && t.sprobabilities[w] == s.sprobabilities[w] + proba
      && t.sprobabilities[w] > s.sprobabilities[w]
      && 0.0 < lf < 1.0
      && Sum(t.sprobabilities) == Sum(s.sprobabilities) + proba
      && t.probabilities[w] == t.sprobabilities[w] / (Sum(s.sprobabilities) + proba)
      && (s.weights[w] <= target ==> s.weights[w] <= t.weights[w] <= target)
      && (target <= s.weights[w] ==> target <= t.weights[w] <= s.weights[w])
      && |t.means[w]| == |x|
      && (forall i :: 0 <= i < |x| ==> t.means[w][i] == s.means[w][i] + lf * (x[i] - s.means[w][i]))
  {
    assert ValidCluster(s, w, s.Dim());
    var proba := Responsibility(s, nums, x, w);
    var sumSp := SumSp(s);
    assert sumSp == Sum(s.sprobabilities);
    assert Reused(s, nums, x, target, w) == WinnerStep(s, nums, x, target, w, proba, sumSp);
    WinnerStepUpdates(s, nums, x, target, w, proba, sumSp);
  }

  /** The facts of ReuseUpdatesWinner for any responsibility proba in (0, 1]. */
  lemma WinnerStepUpdates(s: MixtureState, nums: Numerics, x: Vector, target: real, w: nat,
                          proba: real, sumSp: real)
    requires SameLengths(s) && w < s.Size()
    requires |x| == |s.means[w]| && IsMatrix(s.covariances[w], |x|, |x|)
    requires s.sprobabilities[w] >= 1.0 && 0.0 < proba <= 1.0 && sumSp >= 1.0
    ensures var t := WinnerStep(s, nums, x, target, w, proba, sumSp);
      var lf := proba / t.sprobabilities[w];
      && SameLengths(t) && t.Size() == s.Size()
      && t.sprobabilities[w] == s.sprobabilities[w] + proba
      && t.sprobabilities[w] > s.sprobabilities[w]
      && 0.0 < lf < 1.0
      && Sum(t.sprobabilities) == Sum(s.sprobabilities) + proba
      && t.probabilities[w] == t.sprobabilities[w] / (sumSp + proba)
      && (s.weights[w] <= target ==> s.weights[w] <= t.weights[w] <= target)
      && (target <= s.weights[w] ==> target <= t.weights[w] <= s.weights[w])
      && |t.means[w]| == |x|
      && (forall i :: 0 <= i < |x| ==> t.means[w][i] == s.means[w][i] + lf * (x[i] - s.means[w][i]))
  {
    var t := WinnerStep(s, nums, x, target, w, proba, sumSp);
    var lf := LearningFactor(s.sprobabilities[w], proba);
    assert t.sprobabilities == s.sprobabilities[w := s.sprobabilities[w] + proba];
    SumUpdate(s.sprobabilities, w, s.sprobabilities[w] + proba);
    WeightStep(s.weights[w], target, lf);
  }

  /** v + lf * (target - v) for lf in [0, 1] lies between v and target. */
  lemma WeightStep(v: real, target: real, lf: real)
    requires 0.0 <= lf <= 1.0
    ensures v <= target ==> v <= v + lf * (target - v) <= target
    ensures target <= v ==> target <= v + lf * (target - v) <= v
  {
    var a := target - v;
    assert (1.0 - lf) * a == a - lf * a;
    if a >= 0.0 {
      NonNegativeProduct(lf, a);
      NonNegativeProduct(1.0 - lf, a);
    } else {
      NonNegativeProduct(lf, -a);
      NonNegativeProduct(1.0 - lf, -a);
    }
  }

  /** An observation equal to the winner's mean and value leaves both as
      they are; the covariance then only shrinks by (1 - lf). */
  lemma ReuseFixedPoint(s: MixtureState, nums: Numerics, x: Vector, target: real, w: nat)
    requires ValidState(s) && Accepts(s, x) && w < s.Size()
    requires x == s.means[w] && target == s.weights[w]
    ensures var t := Reused(s, nums, x, target, w);
      var lf := Responsibility(s, nums, x, w) / t.sprobabilities[w];
      && SameLengths(t) && t.Size() == s.Size()
      && t.means[w] == s.means[w] && t.weights[w] == s.weights[w]
      && (forall i, j :: 0 <= i < |x| && 0 <= j < |x| ==>
            t.covariances[w][i][j] == (1.0 - lf) * s.covariances[w][i][j])
  {
    assert ValidCluster(s, w, s.Dim());
    var proba := Responsibility(s, nums, x, w);
    assert Reused(s, nums, x, target, w) == WinnerStep(s, nums, x, target, w, proba, SumSp(s));
    WinnerStepFixedPoint(s, nums, x, target, w, proba, SumSp(s));
  }

  /** The fixed point of ReuseFixedPoint for any responsibility proba. */
  lemma WinnerStepFixedPoint(s: MixtureState, nums: Numerics, x: Vector, target: real, w: nat,
                             proba: real, sumSp: real)
    requires SameLengths(s) && w < s.Size()
    requires |x| == |s.means[w]| && IsMatrix(s.covariances[w], |x|, |x|)
    requires s.sprobabilities[w] >= 1.0 && 0.0 <= proba <= 1.0 && sumSp >= 1.0
    requires x == s.means[w] && target == s.weights[w]
    ensures var t := WinnerStep(s, nums, x, target, w, proba, sumSp);
      var lf := proba / t.sprobabilities[w];
      && SameLengths(t) && t.Size() == s.Size()
      && t.means[w] == s.means[w] && t.weights[w] == s.weights[w]
      && (forall i, j :: 0 <= i < |x| && 0 <= j < |x| ==>
            t.covariances[w][i][j] == (1.0 - lf) * s.covariances[w][i][j])
  {
    var t := WinnerStep(s, nums, x, target, w, proba, sumSp);
    var lf := LearningFactor(s.sprobabilities[w], proba);
    var deltaMean := VecSub(x, s.means[w]);
    var deltaPrevMean := VecSub(deltaMean, VecScale(lf, deltaMean));
    assert t.sprobabilities[w] == s.sprobabilities[w] + proba;
    assert t.means[w] == s.means[w];
    assert t.covariances[w] == CovarianceStep(s.covariances[w], deltaPrevMean, lf);
    ZeroStep(x, lf);
    CovarianceStepAtZero(s.covariances[w], deltaPrevMean, lf);
  }

  /** x - x, less lf times itself, is the zero vector. */
  lemma ZeroStep(x: Vector, lf: real)
    ensures var d := VecSub(x, x);
      forall i :: 0 <= i < |x| ==> VecSub(d, VecScale(lf, d))[i] == 0.0
  {
    var d := VecSub(x, x);
    forall i | 0 <= i < |x|
      ensures VecSub(d, VecScale(lf, d))[i] == 0.0
    {
      assert d[i] == 0.0;
      ZeroFactor(lf, d[i]);
    }
  }

  /** With a zero deviation the covariance step only scales by 1 - lf. */
  lemma CovarianceStepAtZero(cov: Matrix, d: Vector, lf: real)
    requires IsMatrix(cov, |d|, |d|)
    requires forall i :: 0 <= i < |d| ==> d[i] == 0.0
    ensures forall i, j :: 0 <= i < |d| && 0 <= j < |d| ==>
      CovarianceStep(cov, d, lf)[i][j] == (1.0 - lf) * cov[i][j]
  {
    forall i, j | 0 <= i < |d| && 0 <= j < |d|
      ensures CovarianceStep(cov, d, lf)[i][j] == (1.0 - lf) * cov[i][j]
    {
      ZeroFactor(d[i], d[j]);
      assert Outer(d, d)[i][j] == 0.0;
      assert MatSub(Outer(d, d), cov)[i][j] == -cov[i][j];
      assert MatScale(MatSub(Outer(d, d), cov), lf)[i][j] == lf * -cov[i][j];
    }
  }

  // ---------------------------------------------------------------------
  // The mixture object

  class GaussianMixture {
    const varInitial: real
    const novelty: real
    const numerics: Numerics

    var means: seq<Vector>
    var covariances: seq<Matrix>
    var invCovariances: seq<Matrix>
    var weights: seq<real>
    var probabilities: seq<real>
    var sprobabilities: seq<real>
    var normalizations: seq<real>
    var invTwoPiD: real

    function View(): MixtureState
      reads this
    {
      MixtureState(means, covariances, invCovariances, weights, probabilities,
                   sprobabilities, normalizations, invTwoPiD)
    }

    ghost predicate Valid()
      reads this
    {
      WellFormed(numerics) && ValidState(View())
    }

    constructor (varInitial: real, novelty: real, numerics: Numerics)
      requires WellFormed(numerics)
      ensures Valid()
      ensures this.varInitial == varInitial && this.novelty == novelty && this.numerics == numerics
      ensures means == [] && covariances == [] && invCovariances == [] && weights == []
      ensures probabilities == [] && sprobabilities == [] && normalizations == []
    {
      this.varInitial := varInitial;
      this.novelty := novelty;
      this.numerics := numerics;
      means, covariances, invCovariances := [], [], [];
      weights, probabilities, sprobabilities, normalizations := [], [], [], [];
      // left uninitialised by the source; read only once a cluster exists
      invTwoPiD := 0.0;
    }

    /** The raw evidence of every cluster. The target feeds only a penalty
        the source computes and discards. */
    method ProbabilitiesOfInputs(input: Vector, target: real) returns (out: seq<real>)
      requires Valid() && Accepts(View(), input)
      ensures out == Evidences(View(), numerics, input)
    {
      out := [];
      var cluster := 0;
      while cluster < |weights|
        invariant 0 <= cluster <= |weights|
        invariant |out| == cluster
        invariant forall c :: 0 <= c < cluster ==> out[c] == Evidences(View(), numerics, input)[c]
      {
        assert ValidCluster(View(), cluster, View().Dim());
        out := out + [ProbabilityOfInput(View(), numerics, cluster, input) * probabilities[cluster]];
        cluster := cluster + 1;
      }
    }

    /** The responsibilities of every cluster for input. */
    method ProbabilitiesOfClustersOf(input: Vector, target: real) returns (out: seq<real>)
      requires Valid() && Accepts(View(), input)
      ensures |View().weights| == 0 || Sum(Evidences(View(), numerics, input)) != 0.0
      ensures out == Responsibilities(Evidences(View(), numerics, input))
    {
      var inputProbas := ProbabilitiesOfInputs(input, target);
      EvidenceSumPositive(View(), numerics, input);
      out := ProbabilitiesOfClusters(inputProbas);
    }

    /** value(): the responsibility-weighted blend of the stored values;
        0 for an empty mixture. */
    method Value(input: Vector) returns (rs: real)
      requires Valid() && Accepts(View(), input)
      ensures rs == Predict(View(), numerics, input)
      ensures |weights| > 0 ==> SeqMin(weights) <= rs <= SeqMax(weights)
      ensures |weights| == 0 ==> rs == 0.0
    {
      // the source passes NaN as the target here; it is never read
      var clusterProbabilities := ProbabilitiesOfClustersOf(input, 0.0);
      var ws := weights;
      assert |clusterProbabilities| == |ws|;
      rs := 0.0;
      var cluster := 0;
      while cluster < |ws|
        invariant 0 <= cluster <= |ws|
        invariant rs == Dot(ws[..cluster], clusterProbabilities[..cluster])
      {
        DotPrefix(ws, clusterProbabilities, cluster);
        rs := rs + ws[cluster] * clusterProbabilities[cluster];
        cluster := cluster + 1;
      }
      assert ws[..cluster] == ws;
      assert clusterProbabilities[..cluster] == clusterProbabilities;
      if |weights| > 0 {
        PredictionBounds(View(), numerics, input);
      }
    }

    /** setValue(): spawn a cluster for a novel input, otherwise update the
        cluster with the greatest evidence. */
    method SetValue(input: Vector, target: real)
      requires Valid() && Accepts(View(), input)
      modifies this
      ensures Valid()
      ensures View() == SetValueSpec(old(View()), numerics, varInitial, novelty, input, target)
    {
      ghost var s := View();
      var sumSp := if |weights| == 0 then 1.0 else Sum(sprobabilities);
      assert sumSp == SumSp(s);

      var inputProbabilities := ProbabilitiesOfInputs(input, target);
      var createNewCluster := IsNovelInput(inputProbabilities);

      if createNewCluster {
        CreateCluster(input, target, sumSp);
      } else {
        EvidenceSumPositive(s, numerics, input);
        var clusterProbabilities := ProbabilitiesOfClusters(inputProbabilities);
        var winner := ArgMax(inputProbabilities);
        var proba := clusterProbabilities[winner];
        assert proba == Responsibility(s, numerics, input, winner);
        assert ValidCluster(s, winner, s.Dim());
        UpdateWinner(input, target, sumSp, winner, proba);
      }
      SetValueValid(s, numerics, varInitial, novelty, input, target);
    }

    /** The novelty loop of setValue(): a new cluster is needed unless some
        cluster's evidence exceeds its normalisation times the novelty. */
    method IsNovelInput(inputProbabilities: seq<real>) returns (createNewCluster: bool)
      requires |inputProbabilities| == |normalizations|
      ensures createNewCluster == IsNovel(inputProbabilities, normalizations, novelty)
    {
      createNewCluster := true;
      var cluster := 0;
      while cluster < |normalizations|
        invariant 0 <= cluster <= |normalizations|
        invariant forall c :: 0 <= c < cluster ==> inputProbabilities[c] <= normalizations[c] * novelty
      {
        if inputProbabilities[cluster] > normalizations[cluster] * novelty {
          createNewCluster := false;
          return;
        }
        cluster := cluster + 1;
      }
    }

    /** The creation branch of setValue(): append a cluster centred on input
        and rescale the mixing weights of the older ones. */
    method CreateCluster(input: Vector, target: real, sumSp: real)
      requires SameLengths(View()) && sumSp >= 1.0
      modifies this
      ensures View() == Appended(old(View()), numerics, varInitial, input, target, sumSp)
    {
      ghost var s := View();
      ghost var t := Appended(s, numerics, varInitial, input, target, sumSp);
      var d := |input|;
      var covariance := MatScale(Identity(d), varInitial);
      var inv2piD := 1.0 / numerics.pow(2.0 * PiLiteral, d as real * 0.5);
      assert [inv2piD / numerics.sqrtOfNorm(covariance)] == t.normalizations[|s.normalizations|..];

      invTwoPiD := inv2piD;
      means, covariances, invCovariances := means + [input], covariances + [covariance],
        invCovariances + [numerics.inverse(covariance)];
      weights, probabilities := weights + [target], probabilities + [1.0 / sumSp];
      sprobabilities := sprobabilities + [1.0];
      normalizations := normalizations + [inv2piD / numerics.sqrtOfNorm(covariance)];

      // rescale the mixing weights of the older clusters
      RescaleMixingWeights(|weights| - 1, 1.0 / (sumSp + 1.0));
      RescaledThenPushed(sprobabilities, probabilities, |weights| - 1, sumSp + 1.0, 1.0 / sumSp);
      assert sprobabilities[..|weights| - 1] == s.sprobabilities;
    }

    /** Set the mixing weight of each of the first count clusters to its
        pseudo-count times invSumSp. */
    method RescaleMixingWeights(count: nat, invSumSp: real)
      requires count <= |probabilities| && count <= |sprobabilities|
      modifies this`probabilities
      ensures |probabilities| == |old(probabilities)|
      ensures forall c :: 0 <= c < count ==> probabilities[c] == sprobabilities[c] * invSumSp
      ensures forall c :: count <= c < |probabilities| ==> probabilities[c] == old(probabilities[c])
    {
      var cluster := 0;
      while cluster < count
        invariant 0 <= cluster <= count
        invariant |probabilities| == |old(probabilities)|
        invariant forall c :: 0 <= c < cluster ==> probabilities[c] == sprobabilities[c] * invSumSp
        invariant forall c :: cluster <= c < |probabilities| ==> probabilities[c] == old(probabilities[c])
      {
        probabilities := probabilities[cluster := sprobabilities[cluster] * invSumSp];
        cluster := cluster + 1;
      }
    }

    /** The reuse branch of setValue(): move cluster w, whose responsibility
        is proba, towards (input, target). */
    method UpdateWinner(input: Vector, target: real, sumSp: real, cluster: nat, proba: real)
      requires SameLengths(View()) && cluster < |weights|
      requires |input| == |means[cluster]| && IsMatrix(covariances[cluster], |input|, |input|)
      requires sprobabilities[cluster] >= 1.0 && 0.0 <= proba <= 1.0 && sumSp >= 1.0
      modifies this
      ensures View() == WinnerStep(old(View()), numerics, input, target, cluster, proba, sumSp)
    {
      ghost var t := WinnerStep(View(), numerics, input, target, cluster, proba, sumSp);
      var newSproba := sprobabilities[cluster] + proba;
      var learningFactor := proba / newSproba;
      assert learningFactor == LearningFactor(sprobabilities[cluster], proba);
      var deltaMean := VecSub(input, means[cluster]);
      var deltaMeanFactor := VecScale(learningFactor, deltaMean);
      var deltaPrevMean := VecSub(deltaMean, deltaMeanFactor);
      var weight := weights[cluster] + learningFactor * (target - weights[cluster]);
      var covariance := CovarianceStep(covariances[cluster], deltaPrevMean, learningFactor);
      assert t.weights[cluster] == weight;
      assert t.weights == weights[cluster := weight];

      sprobabilities := sprobabilities[cluster := newSproba];
      probabilities := probabilities[cluster := newSproba / (sumSp + proba)];
      means, weights := means[cluster := VecAdd(means[cluster], deltaMeanFactor)], weights[cluster := weight];
      covariances, invCovariances := covariances[cluster := covariance],
        invCovariances[cluster := numerics.inverse(covariance)];
      normalizations := normalizations[cluster := invTwoPiD / numerics.sqrtOfNorm(covariance)];
    }
  }

  /** Normalise a buffer of evidences by their sum. */
  method ProbabilitiesOfClusters(inputProbabilities: seq<real>) returns (out: seq<real>)
    requires |inputProbabilities| == 0 || Sum(inputProbabilities) != 0.0
    ensures out == Responsibilities(inputProbabilities)
  {
    var probaX := Sum(inputProbabilities);
    // the source divides unconditionally; a zero sum only occurs with no
    // clusters, when the reciprocal is never used
    var invProbaX := if probaX != 0.0 then 1.0 / probaX else 0.0;
    out := [];
    var cluster := 0;
    while cluster < |inputProbabilities|
      invariant 0 <= cluster <= |inputProbabilities|
      invariant |out| == cluster
      invariant forall c :: 0 <= c < cluster ==> out[c] == Responsibilities(inputProbabilities)[c]
    {
      out := out + [inputProbabilities[cluster] * invProbaX];
      cluster := cluster + 1;
    }
  }
}
