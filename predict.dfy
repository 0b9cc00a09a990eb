/** The prediction step as a function of the state: augmentation, sigma
    points, motion model, weighted mean and weighted covariance. */
module PredictStep {
  import opened LinAlg
  import opened Angles
  import opened Elementary
  import opened Sigma
  import opened Motion
  import opened Model

  /** Deviations of the predicted sigma points from the mean, with the yaw
      entry (index 3) normalised. */
  function StateDiffs(pts: seq<Vector>, mean: Vector, pi: real): (ds: seq<Vector>)
    requires |mean| == NX && AllLen(pts, NX) && pi > 0.0
    ensures |ds| == |pts| && AllLen(ds, NX)
  {
    WrapEach(Deviations(pts, mean), 3, pi)
  }

  /** The predicted covariance: weighted sum of `d * d^T` over the
      yaw-normalised deviations. */
  function StateCovariance(w: seq<real>, pts: seq<Vector>, mean: Vector, pi: real): (p: Matrix)
    requires |w| == |pts| && |mean| == NX && AllLen(pts, NX) && pi > 0.0
    ensures IsMatrix(p, NX, NX)
  {
    var ds := StateDiffs(pts, mean, pi);
    WeightedOuterSum(w, ds, ds, NX, NX)
  }

  /** The augmented sigma points of a state: the augmented mean spread along
      the columns of the Cholesky factor of the augmented covariance, scaled
      by `sqrt(lambda + n_aug)`. */
  function AugmentedSigmaPoints(x: Vector, P: Matrix, cfg: Config, lib: Lib): (pts: seq<Vector>)
    requires |x| == NX && IsMatrix(P, NX, NX) && lib.Valid()
    ensures |pts| == NSigma && AllLen(pts, NAug)
  {
    var xa := AugmentedMean(x);
    var pa := AugmentedCov(P, cfg.stdA, cfg.stdYawdd);
    SigmaPoints(xa, lib.Cholesky(pa), lib.Sqrt(cfg.lambda + NAug as real))
  }

  /** One prediction over `dt` seconds. */
  function Predict(f: Filter, dt: real, cfg: Config, lib: Lib): (g: Filter)
    requires WellShaped(f) && lib.Valid() && ConfigOk(cfg)
    ensures WellShaped(g)
    ensures g.timeUs == f.timeUs && g.initialized == f.initialized
    ensures g.nisLaser == f.nisLaser && g.nisRadar == f.nisRadar
  {
    var w := Weights(cfg.lambda);
    var sigma := AugmentedSigmaPoints(f.x, f.P, cfg, lib);
    var pred := PredictSigmaPoints(sigma, dt, lib);
    var x := WeightedSum(w, pred, NX);
    f.(x := x, P := StateCovariance(w, pred, x, lib.pi), xsigAug := sigma, xsigPred := pred)
  }

  /** The parts of a prediction: the augmented sigma points of the old state,
      pushed through the motion model, and their weighted mean and
      covariance. */
  lemma PredictParts(f: Filter, dt: real, cfg: Config, lib: Lib)
    requires WellShaped(f) && lib.Valid() && ConfigOk(cfg)
    ensures Predict(f, dt, cfg, lib).xsigAug == AugmentedSigmaPoints(f.x, f.P, cfg, lib)
    ensures Predict(f, dt, cfg, lib).xsigPred == PredictSigmaPoints(Predict(f, dt, cfg, lib).xsigAug, dt, lib)
    ensures Predict(f, dt, cfg, lib).x == WeightedSum(Weights(cfg.lambda), Predict(f, dt, cfg, lib).xsigPred, NX)
    ensures Predict(f, dt, cfg, lib).P
      == StateCovariance(Weights(cfg.lambda), Predict(f, dt, cfg, lib).xsigPred, Predict(f, dt, cfg, lib).x, lib.pi)
  {
  }

  /** The predicted covariance is symmetric. */
  lemma PredictCovSymmetric(f: Filter, dt: real, cfg: Config, lib: Lib)
    requires WellShaped(f) && lib.Valid() && ConfigOk(cfg)
    ensures Symmetric(Predict(f, dt, cfg, lib).P)
  {
    var g := Predict(f, dt, cfg, lib);
    PredictParts(f, dt, cfg, lib);
    OuterSumSymmetric(Weights(cfg.lambda), StateDiffs(g.xsigPred, g.x, lib.pi), NX);
  }

  /** The augmented sigma points average, under the weights, to the augmented
      mean, whatever the Cholesky factor. */
  lemma AugmentedSigmaPointsMean(x: Vector, P: Matrix, cfg: Config, lib: Lib)
    requires |x| == NX && IsMatrix(P, NX, NX) && lib.Valid() && ConfigOk(cfg)
    ensures WeightedSum(Weights(cfg.lambda), AugmentedSigmaPoints(x, P, cfg, lib), NAug) == AugmentedMean(x)
  {
    var pa := AugmentedCov(P, cfg.stdA, cfg.stdYawdd);
    SigmaPointsWeightedMean(cfg.lambda, AugmentedMean(x), lib.Cholesky(pa), lib.Sqrt(cfg.lambda + NAug as real));
  }

  /** Predicting over zero elapsed time leaves the mean unchanged. */
  lemma PredictZeroDtKeepsMean(f: Filter, cfg: Config, lib: Lib)
    requires WellShaped(f) && lib.Valid() && ConfigOk(cfg)
    ensures Predict(f, 0.0, cfg, lib).x == f.x
  {
    var g := Predict(f, 0.0, cfg, lib);
    var w := Weights(cfg.lambda);
    PredictParts(f, 0.0, cfg, lib);
    AugmentedSigmaPointsMean(f.x, f.P, cfg, lib);
    PredictSigmaPointsAtZeroDt(g.xsigAug, lib);
    WeightedSumPrefix(w, g.xsigAug, g.xsigPred, NX, NAug);
  }

  /** Every yaw deviation used in the predicted covariance lies in [-pi, pi],
      and the other entries are plain differences from the mean. */
  lemma StateDiffsWrapped(pts: seq<Vector>, mean: Vector, pi: real)
    requires |mean| == NX && AllLen(pts, NX) && pi > 0.0
    ensures forall i :: 0 <= i < |pts| ==> -pi <= StateDiffs(pts, mean, pi)[i][3] <= pi
    ensures forall i, j :: 0 <= i < |pts| && 0 <= j < NX && j != 3 ==>
      StateDiffs(pts, mean, pi)[i][j] == pts[i][j] - mean[j]
  {
    WrapEachInRange(Deviations(pts, mean), 3, pi);
  }
}
