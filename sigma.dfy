/** Sigma-point weights, the augmented state and covariance, and the
    construction of the 2 * n_aug + 1 sigma points. */
module Sigma {
  import opened LinAlg

  /** State dimension: [px, py, v, yaw, yaw rate]. */
  const NX: nat := 5
  /** Augmented dimension: the state plus the two process-noise variables. */
  const NAug: nat := 7
  /** Number of sigma points. */
  const NSigma: nat := 2 * NAug + 1

  /** The weights for spreading parameter `lambda`: `lambda / (lambda + n_aug)`
      for the centre point and `0.5 / (lambda + n_aug)` for each of the others. */
  function Weights(lambda: real): (w: seq<real>)
    requires lambda + NAug as real != 0.0
    ensures |w| == NSigma
    ensures w[0] == lambda / (lambda + NAug as real)
    ensures forall i :: 1 <= i < NSigma ==> w[i] == 0.5 / (lambda + NAug as real)
  {
    var t := lambda + NAug as real;
    [lambda / t] + seq(NSigma - 1, _ => 0.5 / t)
  }

  /** The weights sum to one for every admissible `lambda`; with `lambda = 0`
      the centre point has weight zero. */
  lemma WeightsSumToOne(lambda: real)
    requires lambda + NAug as real != 0.0
    ensures Sum(Weights(lambda)) == 1.0
    ensures lambda == 0.0 ==> Weights(lambda)[0] == 0.0
  {
    var t := lambda + NAug as real;
    var w := Weights(lambda);
    assert w == [w[0]] + w[1..];
    SumAppend([w[0]], w[1..]);
    assert w[1..] == seq(NSigma - 1, _ => 0.5 / t);
    SumConstant(NSigma - 1, 0.5 / t);
    CentreAndSides(lambda);
  }

  /** `lambda / t + 14 * (0.5 / t) == 1` for `t = lambda + 7`. */
  lemma CentreAndSides(lambda: real)
    requires lambda + NAug as real != 0.0
    ensures lambda / (lambda + 7.0) + 14.0 * (0.5 / (lambda + 7.0)) == 1.0
  {
    var t := lambda + 7.0;
    assert 14.0 * (0.5 / t) == 7.0 / t;
    assert lambda / t + 7.0 / t == (lambda + 7.0) / t;
  }

  /** The augmented mean: the state followed by two zeros (the process-noise
      means). */
  function AugmentedMean(x: Vector): (xa: Vector)
    requires |x| == NX
    ensures |xa| == NAug
    ensures xa[..NX] == x && xa[NX] == 0.0 && xa[NX + 1] == 0.0
  {
    var z := Zeros(NAug);
    x + z[NX..]
  }

  /** The augmented covariance, built as the code builds it: a zero 7 x 7
      matrix, `P` written into its top-left 5 x 5 corner, and the two noise
      variances written onto the last two diagonal entries. */
  function AugmentedCov(P: Matrix, stdA: real, stdYawdd: real): (pa: Matrix)
    requires IsMatrix(P, NX, NX)
    ensures IsMatrix(pa, NAug, NAug)
    ensures forall i, j :: 0 <= i < NAug && 0 <= j < NAug ==>
      pa[i][j] == (if i < NX && j < NX then P[i][j]
                   else if i == j == NX then stdA * stdA
                   else if i == j == NX + 1 then stdYawdd * stdYawdd
                   else 0.0)
  {
    var z := ZeroMatrix(NAug, NAug);
    var corner := seq(NAug, i requires 0 <= i < NAug => if i < NX then P[i] + z[i][NX..] else z[i]);
    corner[NX := corner[NX][NX := stdA * stdA]][NX + 1 := corner[NX + 1][NX + 1 := stdYawdd * stdYawdd]]
  }

  /** A symmetric state covariance gives a symmetric augmented covariance. */
  lemma AugmentedCovSymmetric(P: Matrix, stdA: real, stdYawdd: real)
    requires IsMatrix(P, NX, NX) && Symmetric(P)
    ensures Symmetric(AugmentedCov(P, stdA, stdYawdd))
  {
    var pa := AugmentedCov(P, stdA, stdYawdd);
    forall i, j | 0 <= i < NAug && 0 <= j < NAug ensures pa[i][j] == pa[j][i] {
    }
  }

  /** The sigma points, stored column by column: the augmented mean, then
      `xa + c * A.col(i)` for i = 0..6, then `xa - c * A.col(i)`, where `A` is
      the square-root matrix and `c = sqrt(lambda + n_aug)`. */
  function SigmaPoints(xa: Vector, A: Matrix, c: real): (pts: seq<Vector>)
    requires |xa| == NAug && IsMatrix(A, NAug, NAug)
    ensures |pts| == NSigma && AllLen(pts, NAug)
  {
    seq(NSigma, i requires 0 <= i < NSigma => SigmaPoint(xa, A, c, i))
  }

  /** Column `i` of the sigma-point matrix. */
  function SigmaPoint(xa: Vector, A: Matrix, c: real, i: nat): (p: Vector)
    requires |xa| == NAug && IsMatrix(A, NAug, NAug) && i < NSigma
    ensures |p| == NAug
  {
    if i == 0 then xa
    else if i <= NAug then VecAdd(xa, VecScale(c, Component(A, i - 1)))
    else VecSub(xa, VecScale(c, Component(A, i - 1 - NAug)))
  }

  /** Column 0 is the mean, and columns `i + 1` and `i + 1 + n_aug` mirror
      each other about it: they are `xa + d` and `xa - d` for `d = c * A.col(i)`. */
  lemma SigmaPointsMirror(xa: Vector, A: Matrix, c: real, i: nat)
    requires |xa| == NAug && IsMatrix(A, NAug, NAug) && i < NAug
    ensures SigmaPoints(xa, A, c)[0] == xa
    ensures VecAdd(SigmaPoints(xa, A, c)[i + 1], SigmaPoints(xa, A, c)[i + 1 + NAug]) == VecScale(2.0, xa)
    ensures VecSub(SigmaPoints(xa, A, c)[i + 1], xa) == VecScale(c, Component(A, i))
  {
    var pts := SigmaPoints(xa, A, c);
    var d := VecScale(c, Component(A, i));
    assert pts[i + 1] == VecAdd(xa, d);
    assert pts[i + 1 + NAug] == VecSub(xa, d);
  }

  /** With weights summing to one, the weighted sum of the sigma points is the
      augmented mean, whatever the square-root matrix and scale. */
  lemma SigmaPointsWeightedMean(lambda: real, xa: Vector, A: Matrix, c: real)
    requires lambda + NAug as real != 0.0
    requires |xa| == NAug && IsMatrix(A, NAug, NAug)
    ensures WeightedSum(Weights(lambda), SigmaPoints(xa, A, c), NAug) == xa
  {
    var w := Weights(lambda);
    var pts := SigmaPoints(xa, A, c);
    forall j | 0 <= j < NAug ensures WeightedSum(w, pts, NAug)[j] == xa[j] {
      WeightedSumAt(w, pts, NAug, j);
      ComponentMean(lambda, xa, A, c, j);
    }
  }

  /** Entry `j` of the sigma points: `xa[j]` in column 0 and mirrored entries
      in columns `k + 1` and `k + 1 + n_aug`. */
  lemma ComponentMean(lambda: real, xa: Vector, A: Matrix, c: real, j: nat)
    requires lambda + NAug as real != 0.0
    requires |xa| == NAug && IsMatrix(A, NAug, NAug) && j < NAug
    ensures Dot(Weights(lambda), Component(SigmaPoints(xa, A, c), j)) == xa[j]
  {
    var pts := SigmaPoints(xa, A, c);
    var s := Component(pts, j);
    forall k | 1 <= k <= NAug ensures s[k] + s[k + NAug] == 2.0 * xa[j] {
      SigmaPointsMirror(xa, A, c, k - 1);
      assert VecAdd(pts[k], pts[k + NAug])[j] == pts[k][j] + pts[k + NAug][j];
    }
    MirroredMean(lambda, s, xa[j]);
  }

  /** Fifteen entries, the first `a` and the other fourteen in pairs `k`,
      `k + n_aug` mirrored about `a`, have weighted sum `a`: the centre
      weight times `a` plus the common side weight times `14 * a`. */
  lemma MirroredMean(lambda: real, s: seq<real>, a: real)
    requires lambda + NAug as real != 0.0
    requires |s| == NSigma && s[0] == a
    requires forall k :: 1 <= k <= NAug ==> s[k] + s[k + NAug] == 2.0 * a
    ensures Dot(Weights(lambda), s) == a
  {
    var w := Weights(lambda);
    var t := lambda + NAug as real;
    DotFirst(w, s);
    assert w[1..] == seq(|s[1..]|, _ => 0.5 / t);
    DotConstant(0.5 / t, s[1..]);
    var plus, minus := s[1..NAug + 1], s[NAug + 1..];
    assert s[1..] == plus + minus;
    SumAppend(plus, minus);
    assert forall k :: 0 <= k < NAug ==> plus[k] + minus[k] == 2.0 * a by {
      forall k | 0 <= k < NAug ensures plus[k] + minus[k] == 2.0 * a {
        assert plus[k] == s[k + 1] && minus[k] == s[k + 1 + NAug];
        assert s[k + 1] + s[(k + 1) + NAug] == 2.0 * a;
      }
    }
    SumMirror(plus, minus, a);
    CentreAndSides(lambda);
    WeightedCombination(lambda / t, 0.5 / t, a);
  }

  /** `w0 * a + q * (14 * a) == a` when `w0 + 14 * q == 1`. */
  lemma WeightedCombination(w0: real, q: real, a: real)
    requires w0 + 14.0 * q == 1.0
    ensures w0 * a + q * (2.0 * 7.0 * a) == a
  {
    assert w0 * a + q * (14.0 * a) == (w0 + 14.0 * q) * a;
  }
}
