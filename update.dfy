/** The two measurement updates as functions of the state: the predicted
    sigma points mapped into measurement space, the predicted measurement and
    its covariance, the cross-correlation with the state, and the Kalman
    correction with its normalised innovation squared (NIS). */
module Update {
  import opened LinAlg
  import opened Angles
  import opened Elementary
  import opened Sigma
  import opened Model
  import opened PredictStep

  /** Lidar measures `[px, py]`. */
  const NZLidar: nat := 2
  /** Radar measures `[rho, phi, rho_dot]`. */
  const NZRadar: nat := 3

  // ---------------------------------------------------------------------
  // Measurement models

  /** A state seen by the lidar: its position. */
  function LidarPoint(p: Vector): (z: Vector)
    requires |p| == NX
    ensures z == p[..NZLidar]
  {
    [p[0], p[1]]
  }

  /** The predicted sigma points in lidar space. */
  function LidarSigma(pts: seq<Vector>): (zs: seq<Vector>)
    requires AllLen(pts, NX)
    ensures |zs| == |pts| && AllLen(zs, NZLidar)
  {
    seq(|pts|, i requires 0 <= i < |pts| => LidarPoint(pts[i]))
  }

  /** Range of a state from the sensor: `sqrt(px^2 + py^2)`. */
  function Range(p: Vector, lib: Lib): (r: real)
    requires |p| == NX
    ensures r == lib.Sqrt(Dot(p[..2], p[..2]))
  {
    assert p[..2][..1] == [p[0]] && [p[0]][..0] == [];
    assert Dot([p[0]], [p[0]]) == p[0] * p[0];
    assert Dot(p[..2], p[..2]) == p[0] * p[0] + p[1] * p[1];
    lib.Sqrt(p[0] * p[0] + p[1] * p[1])
  }

  /** No predicted sigma point sits at range zero, so the range rate is
      defined for all of them. */
  predicate RangesNonzero(pts: seq<Vector>, lib: Lib)
    requires AllLen(pts, NX)
  {
    forall i :: 0 <= i < |pts| ==> Range(pts[i], lib) != 0.0
  }

  /** A state seen by the radar: range, bearing `atan2(py, px)` and range rate
      `(px * cos(yaw) * v + py * sin(yaw) * v) / rho`. */
  function RadarPoint(p: Vector, lib: Lib): (z: Vector)
    requires |p| == NX && Range(p, lib) != 0.0
    ensures |z| == NZRadar
  {
    var px, py, v, yaw := p[0], p[1], p[2], p[3];
    var rho := Range(p, lib);
    [rho, lib.Atan2(py, px), (px * lib.Cos(yaw) * v + py * lib.Sin(yaw) * v) / rho]
  }

  /** The predicted sigma points in radar space. */
  function RadarSigma(pts: seq<Vector>, lib: Lib): (zs: seq<Vector>)
    requires AllLen(pts, NX) && RangesNonzero(pts, lib)
    ensures |zs| == |pts| && AllLen(zs, NZRadar)
  {
    seq(|pts|, i requires 0 <= i < |pts| => RadarPoint(pts[i], lib))
  }

  /** The lidar noise covariance `R`: the squared standard deviations on the
      diagonal. */
  function LidarNoise(cfg: Config): (r: Matrix)
    ensures IsMatrix(r, NZLidar, NZLidar)
  {
    [[cfg.stdLaspx * cfg.stdLaspx, 0.0],
     [0.0, cfg.stdLaspy * cfg.stdLaspy]]
  }

  /** The radar noise covariance `R`. */
  function RadarNoise(cfg: Config): (r: Matrix)
    ensures IsMatrix(r, NZRadar, NZRadar)
  {
    [[cfg.stdRadr * cfg.stdRadr, 0.0, 0.0],
     [0.0, cfg.stdRadphi * cfg.stdRadphi, 0.0],
     [0.0, 0.0, cfg.stdRadrd * cfg.stdRadrd]]
  }

  // ---------------------------------------------------------------------
  // Innovation

  /** Predicted measurement, its covariance `S` (noise included), the
      state-measurement cross-correlation `Tc` and the innovation `y`. */
  datatype Innovation = Innovation(zPred: Vector, S: Matrix, Tc: Matrix, y: Vector)

  /** `zPred` has `n` entries, `S` is `n x n`, `Tc` is `n_x x n`, `y` has `n`
      entries. */
  predicate InnovationShaped(inn: Innovation, n: nat) {
    |inn.zPred| == n && IsMatrix(inn.S, n, n) && IsMatrix(inn.Tc, NX, n) && |inn.y| == n
  }

  /** Assemble an innovation from the weights, the state deviations `xd`, the
      predicted measurement, the measurement deviations `zd`, the noise `R`
      and the innovation: `S = sum w zd zd^T + R`, `Tc = sum w xd zd^T`. */
  function Assemble(w: seq<real>, xd: seq<Vector>, zPred: Vector, zd: seq<Vector>, R: Matrix, y: Vector): (inn: Innovation)
    requires |w| == |xd| == |zd| && AllLen(xd, NX) && AllLen(zd, |zPred|)
    requires IsMatrix(R, |zPred|, |zPred|) && |y| == |zPred|
    ensures InnovationShaped(inn, |zPred|)
  {
    var n := |zPred|;
    Innovation(zPred, MatAdd(WeightedOuterSum(w, zd, zd, n, n), R), WeightedOuterSum(w, xd, zd, NX, n), y)
  }

  /** The lidar innovation of measurement `z`. */
  function LidarInnovation(f: Filter, z: Vector, cfg: Config, lib: Lib): (inn: Innovation)
    requires WellShaped(f) && ConfigOk(cfg) && lib.Valid() && |z| == NZLidar
    ensures InnovationShaped(inn, NZLidar)
  {
    var w := Weights(cfg.lambda);
    var zs := LidarSigma(f.xsigPred);
    var zPred := WeightedSum(w, zs, NZLidar);
    Assemble(w, StateDiffs(f.xsigPred, f.x, lib.pi), zPred, Deviations(zs, zPred), LidarNoise(cfg), VecSub(z, zPred))
  }

  /** The radar measurement deviations, bearing normalised. */
  function RadarDiffs(zs: seq<Vector>, zPred: Vector, pi: real): (zd: seq<Vector>)
    requires |zPred| == NZRadar && AllLen(zs, NZRadar) && pi > 0.0
    ensures |zd| == |zs| && AllLen(zd, NZRadar)
  {
    WrapEach(Deviations(zs, zPred), 1, pi)
  }

  /** The radar innovation of measurement `z`: as for the lidar, with the
      bearing of every deviation and of the innovation normalised. */
  function RadarInnovation(f: Filter, z: Vector, cfg: Config, lib: Lib): (inn: Innovation)
    requires WellShaped(f) && ConfigOk(cfg) && lib.Valid() && |z| == NZRadar
    requires RangesNonzero(f.xsigPred, lib)
    ensures InnovationShaped(inn, NZRadar)
  {
    var w := Weights(cfg.lambda);
    var zs := RadarSigma(f.xsigPred, lib);
    var zPred := WeightedSum(w, zs, NZRadar);
    Assemble(w, StateDiffs(f.xsigPred, f.x, lib.pi), zPred, RadarDiffs(zs, zPred, lib.pi), RadarNoise(cfg),
             WrapAt(VecSub(z, zPred), 1, lib.pi))
  }

  // ---------------------------------------------------------------------
  // Correction

  /** The corrected mean and covariance and the NIS of the innovation. */
  datatype Correction = Correction(x: Vector, P: Matrix, nis: real)

  /** The Kalman gain `K = Tc * S^-1`. */
  function Gain(inn: Innovation, n: nat, lib: Lib): (k: Matrix)
    requires InnovationShaped(inn, n) && lib.Valid()
    ensures IsMatrix(k, NX, n)
  {
    MatMul(inn.Tc, lib.Inverse(inn.S), n)
  }

  /** `x + K y`, `P - K S K^T` and `y^T S^-1 y`. */
  function Correct(x: Vector, P: Matrix, inn: Innovation, n: nat, lib: Lib): (c: Correction)
    requires |x| == NX && IsMatrix(P, NX, NX) && InnovationShaped(inn, n) && lib.Valid()
    ensures |c.x| == NX && IsMatrix(c.P, NX, NX)
  {
    var K := Gain(inn, n, lib);
    var KS := MatMul(K, inn.S, n);
    Correction(VecAdd(x, MatVec(K, inn.y)),
               MatSub(P, MatMul(KS, Transpose(K, n), NX)),
               Dot(inn.y, MatVec(lib.Inverse(inn.S), inn.y)))
  }

  /** The corrected covariance `P - K S K^T` is symmetric when `P` and `S`
      are, whatever the inverse of `S`. */
  lemma CorrectSymmetric(x: Vector, P: Matrix, inn: Innovation, n: nat, lib: Lib)
    requires |x| == NX && IsMatrix(P, NX, NX) && InnovationShaped(inn, n) && lib.Valid()
    requires Symmetric(P) && Symmetric(inn.S)
    ensures Symmetric(Correct(x, P, inn, n, lib).P)
  {
    var K := Gain(inn, n, lib);
    SandwichSymmetric(K, inn.S);
    SymmetricSub(P, MatMul(MatMul(K, inn.S, n), Transpose(K, n), NX));
  }

  /** The lidar update: correct mean and covariance, record the lidar NIS. */
  function LidarUpdate(f: Filter, z: Vector, cfg: Config, lib: Lib): (g: Filter)
    requires WellShaped(f) && ConfigOk(cfg) && lib.Valid() && |z| == NZLidar
    ensures WellShaped(g)
    ensures g.xsigAug == f.xsigAug && g.xsigPred == f.xsigPred
    ensures g.timeUs == f.timeUs && g.initialized == f.initialized && g.nisRadar == f.nisRadar
  {
    var c := Correct(f.x, f.P, LidarInnovation(f, z, cfg, lib), NZLidar, lib);
    f.(x := c.x, P := c.P, nisLaser := c.nis)
  }

  /** The radar update: correct mean and covariance, record the radar NIS. */
  function RadarUpdate(f: Filter, z: Vector, cfg: Config, lib: Lib): (g: Filter)
    requires WellShaped(f) && ConfigOk(cfg) && lib.Valid() && |z| == NZRadar
    requires RangesNonzero(f.xsigPred, lib)
    ensures WellShaped(g)
    ensures g.xsigAug == f.xsigAug && g.xsigPred == f.xsigPred
    ensures g.timeUs == f.timeUs && g.initialized == f.initialized && g.nisLaser == f.nisLaser
  {
    var c := Correct(f.x, f.P, RadarInnovation(f, z, cfg, lib), NZRadar, lib);
    f.(x := c.x, P := c.P, nisRadar := c.nis)
  }

  // ---------------------------------------------------------------------
  // Properties

  /** A weighted outer-product sum plus a symmetric noise matrix is
      symmetric. */
  lemma OuterSumPlusNoiseSymmetric(w: seq<real>, zd: seq<Vector>, R: Matrix, n: nat)
    requires |w| == |zd| && AllLen(zd, n) && IsMatrix(R, n, n) && Symmetric(R)
    ensures Symmetric(MatAdd(WeightedOuterSum(w, zd, zd, n, n), R))
  {
    OuterSumSymmetric(w, zd, n);
    SymmetricAdd(WeightedOuterSum(w, zd, zd, n, n), R);
  }

  /** Both noise matrices are symmetric. */
  lemma NoiseSymmetric(cfg: Config)
    ensures Symmetric(LidarNoise(cfg)) && Symmetric(RadarNoise(cfg))
  {
  }

  /** The parts of the lidar innovation. */
  lemma LidarInnovationParts(f: Filter, z: Vector, cfg: Config, lib: Lib)
    requires WellShaped(f) && ConfigOk(cfg) && lib.Valid() && |z| == NZLidar
    ensures var inn, w, zs := LidarInnovation(f, z, cfg, lib), Weights(cfg.lambda), LidarSigma(f.xsigPred);
      && inn.zPred == WeightedSum(w, zs, NZLidar)
      && inn.S == MatAdd(WeightedOuterSum(w, Deviations(zs, inn.zPred), Deviations(zs, inn.zPred), NZLidar, NZLidar),
                         LidarNoise(cfg))
      && inn.Tc == WeightedOuterSum(w, StateDiffs(f.xsigPred, f.x, lib.pi), Deviations(zs, inn.zPred), NX, NZLidar)
      && inn.y == VecSub(z, inn.zPred)
  {
  }

  /** The parts of the radar innovation. */
  lemma RadarInnovationParts(f: Filter, z: Vector, cfg: Config, lib: Lib)
    requires WellShaped(f) && ConfigOk(cfg) && lib.Valid() && |z| == NZRadar
    requires RangesNonzero(f.xsigPred, lib)
    ensures var inn, w, zs := RadarInnovation(f, z, cfg, lib), Weights(cfg.lambda), RadarSigma(f.xsigPred, lib);
      && inn.zPred == WeightedSum(w, zs, NZRadar)
      && inn.S == MatAdd(WeightedOuterSum(w, RadarDiffs(zs, inn.zPred, lib.pi), RadarDiffs(zs, inn.zPred, lib.pi),
                                          NZRadar, NZRadar),
                         RadarNoise(cfg))
      && inn.Tc == WeightedOuterSum(w, StateDiffs(f.xsigPred, f.x, lib.pi), RadarDiffs(zs, inn.zPred, lib.pi),
                                    NX, NZRadar)
      && inn.y == WrapAt(VecSub(z, inn.zPred), 1, lib.pi)
  {
  }

  /** The lidar innovation covariance is symmetric. */
  lemma LidarCovSymmetric(f: Filter, z: Vector, cfg: Config, lib: Lib)
    requires WellShaped(f) && ConfigOk(cfg) && lib.Valid() && |z| == NZLidar
    ensures Symmetric(LidarInnovation(f, z, cfg, lib).S)
  {
    var inn := LidarInnovation(f, z, cfg, lib);
    var zs := LidarSigma(f.xsigPred);
    LidarInnovationParts(f, z, cfg, lib);
    NoiseSymmetric(cfg);
    OuterSumPlusNoiseSymmetric(Weights(cfg.lambda), Deviations(zs, inn.zPred), LidarNoise(cfg), NZLidar);
  }

  /** The radar innovation covariance is symmetric. */
  lemma RadarCovSymmetric(f: Filter, z: Vector, cfg: Config, lib: Lib)
    requires WellShaped(f) && ConfigOk(cfg) && lib.Valid() && |z| == NZRadar
    requires RangesNonzero(f.xsigPred, lib)
    ensures Symmetric(RadarInnovation(f, z, cfg, lib).S)
  {
    var inn := RadarInnovation(f, z, cfg, lib);
    var zs := RadarSigma(f.xsigPred, lib);
    RadarInnovationParts(f, z, cfg, lib);
    NoiseSymmetric(cfg);
    OuterSumPlusNoiseSymmetric(Weights(cfg.lambda), RadarDiffs(zs, inn.zPred, lib.pi), RadarNoise(cfg), NZRadar);
  }

  /** The lidar sigma points are the first two rows (px, py) of the predicted
      sigma points, so their weighted mean is the position part of the
      weighted mean of the predicted sigma points. */
  lemma LidarSigmaRows(w: seq<real>, pts: seq<Vector>)
    requires AllLen(pts, NX) && |w| == |pts|
    ensures Component(LidarSigma(pts), 0) == Component(pts, 0)
    ensures Component(LidarSigma(pts), 1) == Component(pts, 1)
    ensures WeightedSum(w, LidarSigma(pts), NZLidar) == WeightedSum(w, pts, NX)[..NZLidar]
  {
    WeightedSumPrefix(w, pts, LidarSigma(pts), NZLidar, NX);
  }

  /** The lidar's predicted measurement is the position part of the weighted
      mean of the predicted sigma points; right after a prediction that is the
      position part of the state mean. */
  lemma LidarPredictedPosition(f: Filter, z: Vector, cfg: Config, lib: Lib)
    requires WellShaped(f) && ConfigOk(cfg) && lib.Valid() && |z| == NZLidar
    ensures LidarInnovation(f, z, cfg, lib).zPred == WeightedSum(Weights(cfg.lambda), f.xsigPred, NX)[..NZLidar]
    ensures f.x == WeightedSum(Weights(cfg.lambda), f.xsigPred, NX) ==>
      LidarInnovation(f, z, cfg, lib).zPred == f.x[..NZLidar]
  {
    LidarInnovationParts(f, z, cfg, lib);
    LidarSigmaRows(Weights(cfg.lambda), f.xsigPred);
  }

  /** Every bearing deviation used in the radar covariance and
      cross-correlation, and the bearing innovation, lie in [-pi, pi]. */
  lemma RadarBearingsWrapped(zs: seq<Vector>, zPred: Vector, z: Vector, pi: real)
    requires |zPred| == NZRadar && AllLen(zs, NZRadar) && |z| == NZRadar && pi > 0.0
    ensures forall i :: 0 <= i < |zs| ==> -pi <= RadarDiffs(zs, zPred, pi)[i][1] <= pi
    ensures -pi <= WrapAt(VecSub(z, zPred), 1, pi)[1] <= pi
  {
    WrapEachInRange(Deviations(zs, zPred), 1, pi);
    WrapToPiInRange(VecSub(z, zPred)[1], pi);
  }

  /** The radar innovation's bearing lies in [-pi, pi]. */
  lemma RadarInnovationBearingWrapped(f: Filter, z: Vector, cfg: Config, lib: Lib)
    requires WellShaped(f) && ConfigOk(cfg) && lib.Valid() && |z| == NZRadar
    requires RangesNonzero(f.xsigPred, lib)
    ensures -lib.pi <= RadarInnovation(f, z, cfg, lib).y[1] <= lib.pi
  {
    var inn := RadarInnovation(f, z, cfg, lib);
    RadarInnovationParts(f, z, cfg, lib);
    RadarBearingsWrapped(RadarSigma(f.xsigPred, lib), inn.zPred, z, lib.pi);
  }

  /** A zero innovation leaves the mean where it is and has NIS zero. */
  lemma ZeroInnovationKeepsMean(x: Vector, P: Matrix, inn: Innovation, n: nat, lib: Lib)
    requires |x| == NX && IsMatrix(P, NX, NX) && InnovationShaped(inn, n) && lib.Valid()
    requires inn.y == Zeros(n)
    ensures Correct(x, P, inn, n, lib).x == x
    ensures Correct(x, P, inn, n, lib).nis == 0.0
  {
    var K := Gain(inn, n, lib);
    MatVecZeros(K, n);
    MatVecZeros(lib.Inverse(inn.S), n);
    DotZeros(MatVec(lib.Inverse(inn.S), inn.y));
    ZerosDot(inn.y, MatVec(lib.Inverse(inn.S), inn.y));
  }

  /** The lidar update keeps the state covariance symmetric. */
  lemma LidarUpdateSymmetric(f: Filter, z: Vector, cfg: Config, lib: Lib)
    requires WellShaped(f) && ConfigOk(cfg) && lib.Valid() && |z| == NZLidar
    requires Symmetric(f.P)
    ensures Symmetric(LidarUpdate(f, z, cfg, lib).P)
  {
    LidarCovSymmetric(f, z, cfg, lib);
    CorrectSymmetric(f.x, f.P, LidarInnovation(f, z, cfg, lib), NZLidar, lib);
  }

  /** The radar update keeps the state covariance symmetric. */
  lemma RadarUpdateSymmetric(f: Filter, z: Vector, cfg: Config, lib: Lib)
    requires WellShaped(f) && ConfigOk(cfg) && lib.Valid() && |z| == NZRadar
    requires RangesNonzero(f.xsigPred, lib) && Symmetric(f.P)
    ensures Symmetric(RadarUpdate(f, z, cfg, lib).P)
  {
    RadarCovSymmetric(f, z, cfg, lib);
    CorrectSymmetric(f.x, f.P, RadarInnovation(f, z, cfg, lib), NZRadar, lib);
  }
}
