/** The filter object: its state lives in fields that `ProcessMeasurement`,
    `Prediction`, `UpdateLidar` and `UpdateRadar` update in place with the
    loops of the original. Every method is proved to leave the object in the
    state that the corresponding function of the value model computes, and
    records what it did in a ghost trace. */
module Ukf {
  import opened LinAlg
  import opened Angles
  import opened Elementary
  import opened Sigma
  import opened Motion
  import opened Model
  import opened PredictStep
  import opened Update
  import opened Lifecycle

  class UKF {
    /** The elementary functions and pi. */
    const lib: Lib
    /** Noise deviations and spreading parameter, fixed by the constructor. */
    const cfg: Config
    /** Sensor toggles: set, never read. */
    const useLaser: bool
    const useRadar: bool
    /** The sigma-point weights, computed once. */
    const weights: seq<real>

    var x: Vector
    var P: Matrix
    var xsigAug: seq<Vector>
    var xsigPred: seq<Vector>
    var timeUs: int
    var isInitialized: bool
    var nisLaser: real
    var nisRadar: real

    /** Every prediction and update performed so far, in order. */
    ghost var trace: seq<Event>

    /** The fields as a value of the model. */
    function State(): Filter
      reads this
    {
      Filter(x, P, xsigAug, xsigPred, timeUs, isInitialized, nisLaser, nisRadar)
    }

    /** The invariant every method keeps: the routines and constants are those
        of the constructor, every matrix has its size and the covariance is
        symmetric. */
    ghost predicate Valid()
      reads this
    {
      && lib.Valid()
      && cfg == UkfConfig
      && weights == Weights(cfg.lambda)
      && WellShaped(State())
      && Symmetric(P)
    }

    /** A fresh, uninitialised filter: zero mean, time zero, both NIS zero.
        The covariance and the sigma-point matrices are allocated but hold no
        particular values. */
    constructor(lib: Lib)
      requires lib.Valid()
      ensures Valid() && this.lib == lib
      ensures useLaser && useRadar
      ensures !isInitialized && x == Zeros(NX) && timeUs == 0
      ensures nisLaser == 0.0 && nisRadar == 0.0
      ensures trace == []
    {
      this.lib := lib;
      useLaser := true;
      useRadar := true;
      cfg := UkfConfig;
      weights := Weights(UkfConfig.lambda);
      x := Zeros(NX);
      P := ZeroMatrix(NX, NX);
      xsigPred := ZeroMatrix(NSigma, NX);
      xsigAug := ZeroMatrix(NSigma, NAug);
      timeUs := 0;
      isInitialized := false;
      nisLaser := 0.0;
      nisRadar := 0.0;
      trace := [];
    }

    /** One call: bootstrap while uninitialised, otherwise predict over the
        elapsed time and update with the sensor's model: the radar update for
        a radar reading, the lidar update for anything else. */
    method ProcessMeasurement(m: MeasurementPackage)
      requires Valid() && Readable(m, isInitialized)
      requires ProcessDefined(State(), m, cfg, lib)
      modifies this
      ensures Valid()
      ensures State() == Process(old(State()), m, cfg, lib).filter
      ensures trace == old(trace) + Process(old(State()), m, cfg, lib).events
    {
      ghost var f := State();
      if !isInitialized {
        ProcessUninitialized(f, m, cfg, lib);
        Initialize(m);
        return;
      }
      ProcessInitialized(f, m, cfg, lib);
      Advance(m);
    }

    /** A reading for an initialised filter: advance the clock, predict over
        the elapsed time, then update. */
    method Advance(m: MeasurementPackage)
      requires Valid() && isInitialized && Readable(m, true)
      requires ProcessDefined(State(), m, cfg, lib)
      modifies this
      ensures Valid()
      ensures m.sensor == Radar ==>
        State() == RadarUpdate(PredictedState(old(State()), m, cfg, lib), m.raw[..NZRadar], cfg, lib)
      ensures m.sensor != Radar ==>
        State() == LidarUpdate(PredictedState(old(State()), m, cfg, lib), m.raw[..NZLidar], cfg, lib)
      ensures trace == old(trace) + (PredictionEvents(Schedule(Elapsed(m.timestamp, old(timeUs))))
                       + [if m.sensor == Radar then RadarUpdated else LidarUpdated])
    {
      ghost var f := State();
      var deltaT := (m.timestamp - timeUs) as real / 1000000.0;
      assert deltaT == Elapsed(m.timestamp, f.timeUs);
      timeUs := m.timestamp;
      PredictOver(deltaT);
      assert State() == PredictedState(f, m, cfg, lib);
      Update(m);
      AppendAssociates(old(trace), PredictionEvents(Schedule(deltaT)),
                       [if m.sensor == Radar then RadarUpdated else LidarUpdated]);
    }

    /** The update for one reading: the radar model for radar, the lidar
        model for every other sensor. */
    method Update(m: MeasurementPackage)
      requires Valid() && Readable(m, true)
      requires m.sensor == Radar ==> RangesNonzero(xsigPred, lib)
      modifies this
      ensures Valid()
      ensures m.sensor == Radar ==> State() == RadarUpdate(old(State()), m.raw[..NZRadar], cfg, lib)
      ensures m.sensor != Radar ==> State() == LidarUpdate(old(State()), m.raw[..NZLidar], cfg, lib)
      ensures trace == old(trace) + [if m.sensor == Radar then RadarUpdated else LidarUpdated]
    {
      if m.sensor == Radar {
        UpdateRadar(m);
      } else {
        UpdateLidar(m);
      }
    }

    /** The first measurement: a radar reading's polar position converted, a
        laser reading's position taken as is, zero speed, yaw and yaw rate,
        the identity covariance and the measurement's time. Any other sensor
        leaves the filter as it is. */
    method Initialize(m: MeasurementPackage)
      requires Valid() && !isInitialized && Readable(m, false)
      modifies this
      ensures Valid()
      ensures State() == Bootstrap(old(State()), m, lib)
      ensures trace == old(trace)
    {
      ghost var f := State();
      if m.sensor == Radar {
        var rho := m.raw[0];
        var phi := m.raw[1];
        var px := lib.Cos(phi) * rho;
        var py := lib.Sin(phi) * rho;
        assert px == lib.Cos(m.raw[1]) * m.raw[0] && py == lib.Sin(m.raw[1]) * m.raw[0];
        x := [px, py, 0.0, 0.0, 0.0];
      } else if m.sensor == Laser {
        x := [m.raw[0], m.raw[1], 0.0, 0.0, 0.0];
      } else {
        return;
      }
      P := Identity(NX);
      isInitialized := true;
      timeUs := m.timestamp;
      if m.sensor == Radar {
        ghost var b := Bootstrap(f, m, lib);
        assert b.x[0] == x[0] && b.x[1] == x[1];
        assert b.x == x;
      }
    }

    /** Predict over `deltaT` seconds: steps of 0.05 s while more than 0.1 s
        remains, then one step for the remainder. */
    method PredictOver(deltaT: real)
      requires Valid()
      modifies this
      ensures Valid()
      ensures State() == PredictMany(old(State()), Schedule(deltaT), cfg, lib)
      ensures trace == old(trace) + PredictionEvents(Schedule(deltaT))
    {
      ghost var start := State();
      ghost var issued: seq<real> := [];
      var remaining := deltaT;
      while remaining > 0.1
        invariant Valid() && WellShaped(start)
        invariant issued + Schedule(remaining) == Schedule(deltaT)
        invariant State() == PredictMany(start, issued, cfg, lib)
        invariant trace == old(trace) + PredictionEvents(issued)
        decreases (remaining * 20.0).Floor
      {
        var dt := 0.05;
        ScheduleAdvance(issued, remaining, deltaT);
        PredictNext(dt, start, issued, old(trace));
        remaining := remaining - dt;
        issued := issued + [dt];
      }
      ScheduleFinish(issued, remaining, deltaT);
      PredictNext(remaining, start, issued, old(trace));
    }

    /** One more prediction step, after the steps `issued` from `start`. */
    method PredictNext(dt: real, ghost start: Filter, ghost issued: seq<real>, ghost before: seq<Event>)
      requires Valid() && WellShaped(start)
      requires State() == PredictMany(start, issued, cfg, lib)
      requires trace == before + PredictionEvents(issued)
      modifies this
      ensures Valid()
      ensures State() == PredictMany(start, issued + [dt], cfg, lib)
      ensures trace == before + PredictionEvents(issued + [dt])
    {
      ghost var now := State();
      Prediction(dt);
      PredictManyStep(start, issued, dt, cfg, lib);
      assert State() == Predict(now, dt, cfg, lib);
      PredictionEventsStep(before, issued, dt);
    }

    /** Augment, generate the sigma points, push them through the motion
        model, and recompute the mean and the yaw-normalised covariance. */
    method Prediction(deltaT: real)
      requires Valid()
      modifies this
      ensures Valid()
      ensures State() == Predict(old(State()), deltaT, cfg, lib)
      ensures trace == old(trace) + [Predicted(deltaT)]
    {
      ghost var f := State();
      PredictParts(f, deltaT, cfg, lib);
      SpreadAndMove(deltaT);
      PredictMoments();
      trace := trace + [Predicted(deltaT)];
    }

    /** The sigma points of the current state, moved over `deltaT` seconds. */
    method SpreadAndMove(deltaT: real)
      requires Valid()
      modifies this`xsigAug, this`xsigPred
      ensures Valid()
      ensures xsigAug == AugmentedSigmaPoints(x, P, cfg, lib)
      ensures xsigPred == PredictSigmaPoints(xsigAug, deltaT, lib)
    {
      GenerateSigmaPoints();
      MoveSigmaPoints(deltaT);
    }

    /** The mean and covariance of the predicted sigma points. */
    method PredictMoments()
      requires Valid()
      modifies this`x, this`P
      ensures Valid()
      ensures x == WeightedSum(weights, xsigPred, NX)
      ensures P == StateCovariance(weights, xsigPred, x, lib.pi)
    {
      PredictMean();
      PredictCovariance();
    }

    /** The augmented mean and covariance, the square root of the latter, and
        the sigma points spread along its columns. */
    method GenerateSigmaPoints()
      requires Valid()
      modifies this`xsigAug
      ensures Valid()
      ensures xsigAug == AugmentedSigmaPoints(x, P, cfg, lib)
    {
      var xAug := AugmentedMean(x);
      var pAug := AugmentedCov(P, cfg.stdA, cfg.stdYawdd);
      var aAug := lib.Cholesky(pAug);
      var c := lib.Sqrt(cfg.lambda + NAug as real);
      xsigAug := xsigAug[0 := xAug];
      for i := 0 to NAug
        invariant |xsigAug| == NSigma && AllLen(xsigAug, NAug)
        invariant xsigAug[0] == xAug
        invariant forall k :: 1 <= k <= i ==> xsigAug[k] == SigmaPoint(xAug, aAug, c, k)
        invariant forall k :: NAug + 1 <= k <= NAug + i ==> xsigAug[k] == SigmaPoint(xAug, aAug, c, k)
      {
        var d := VecScale(c, Component(aAug, i));
        xsigAug := xsigAug[i + 1 := VecAdd(xAug, d)][i + 1 + NAug := VecSub(xAug, d)];
      }
      assert xsigAug == SigmaPoints(xAug, aAug, c);
    }

    /** Every augmented sigma point through the motion model. */
    method MoveSigmaPoints(deltaT: real)
      requires Valid()
      modifies this`xsigPred
      ensures Valid()
      ensures xsigPred == PredictSigmaPoints(xsigAug, deltaT, lib)
    {
      for i := 0 to NSigma
        invariant |xsigPred| == NSigma && AllLen(xsigPred, NX)
        invariant forall k :: 0 <= k < i ==> xsigPred[k] == MotionModel(xsigAug[k], deltaT, lib)
      {
        xsigPred := xsigPred[i := MotionModel(xsigAug[i], deltaT, lib)];
      }
    }

    /** The mean: the weighted sum of the predicted sigma points. */
    method PredictMean()
      requires Valid()
      modifies this`x
      ensures Valid()
      ensures x == WeightedSum(weights, xsigPred, NX)
    {
      x := Zeros(NX);
      for i := 0 to NSigma
        invariant x == WeightedSum(weights[..i], xsigPred[..i], NX)
      {
        WeightedSumStep(weights, xsigPred, NX, i);
        x := VecAdd(x, VecScale(weights[i], xsigPred[i]));
      }
      assert weights[..NSigma] == weights && xsigPred[..NSigma] == xsigPred;
    }

    /** The covariance: the weighted sum of `d d^T` over the deviations from
        the mean, yaw normalised. */
    method PredictCovariance()
      requires Valid()
      modifies this`P
      ensures Valid()
      ensures P == StateCovariance(weights, xsigPred, x, lib.pi)
    {
      ghost var ds := StateDiffs(xsigPred, x, lib.pi);
      P := ZeroMatrix(NX, NX);
      for i := 0 to NSigma
        invariant P == WeightedOuterSum(weights[..i], ds[..i], ds[..i], NX, NX)
      {
        var xDiff := StateDiff(xsigPred[i], x, lib.pi);
        assert xDiff == ds[i];
        WeightedOuterSumStep(weights, ds, ds, NX, NX, i);
        P := MatAdd(P, Outer(VecScale(weights[i], xDiff), xDiff));
      }
      assert weights[..NSigma] == weights && ds[..NSigma] == ds;
      OuterSumSymmetric(weights, ds, NX);
    }

    /** The lidar update: the predicted sigma points' positions, their mean
        and covariance plus the lidar noise, the cross-correlation with the
        yaw-normalised state deviations, the NIS and the Kalman correction. */
    method UpdateLidar(m: MeasurementPackage)
      requires Valid() && |m.raw| >= NZLidar
      modifies this
      ensures Valid()
      ensures State() == LidarUpdate(old(State()), m.raw[..NZLidar], cfg, lib)
      ensures trace == old(trace) + [LidarUpdated]
    {
      ghost var f := State();
      var zsig, zPred := LidarSigmaMean(weights, xsigPred);
      var S := MeasurementCovariance(weights, zsig, zPred, NZLidar);
      var R := [[cfg.stdLaspx * cfg.stdLaspx, 0.0],
                [0.0, cfg.stdLaspy * cfg.stdLaspy]];
      S := MatAdd(S, R);
      var z := [m.raw[0], m.raw[1]];
      var Tc := CrossCorrelation(weights, xsigPred, x, zsig, zPred, lib.pi);
      var zDiff := VecSub(z, zPred);
      var sInv := lib.Inverse(S);
      nisLaser := Dot(zDiff, MatVec(sInv, zDiff));
      var K := MatMul(Tc, sInv, NZLidar);
      x := VecAdd(x, MatVec(K, zDiff));
      P := MatSub(P, MatMul(MatMul(K, S, NZLidar), Transpose(K, NZLidar), NX));

      assert z == m.raw[..NZLidar];
      LidarInnovationParts(f, z, cfg, lib);
      assert LidarInnovation(f, z, cfg, lib) == Innovation(zPred, S, Tc, zDiff);
      LidarUpdateSymmetric(f, z, cfg, lib);
      trace := trace + [LidarUpdated];
    }

    /** The radar update: as the lidar update with the range, bearing and
        range-rate model, the bearing of every measurement deviation and of
        the innovation normalised. */
    method UpdateRadar(m: MeasurementPackage)
      requires Valid() && |m.raw| >= NZRadar
      requires RangesNonzero(xsigPred, lib)
      modifies this
      ensures Valid()
      ensures State() == RadarUpdate(old(State()), m.raw[..NZRadar], cfg, lib)
      ensures trace == old(trace) + [RadarUpdated]
    {
      ghost var f := State();
      var zsig, zPred := RadarSigmaMean(weights, xsigPred, lib);
      var S := RadarCovariance(weights, zsig, zPred, lib.pi);
      var R := [[cfg.stdRadr * cfg.stdRadr, 0.0, 0.0],
                [0.0, cfg.stdRadphi * cfg.stdRadphi, 0.0],
                [0.0, 0.0, cfg.stdRadrd * cfg.stdRadrd]];
      S := MatAdd(S, R);
      var z := [m.raw[0], m.raw[1], m.raw[2]];
      var Tc := RadarCrossCorrelation(weights, xsigPred, x, zsig, zPred, lib.pi);
      var zDiff := VecSub(z, zPred);
      var phi := NormalizeAngle(zDiff[1], lib.pi);
      zDiff := zDiff[1 := phi];
      var sInv := lib.Inverse(S);
      nisRadar := Dot(zDiff, MatVec(sInv, zDiff));
      var K := MatMul(Tc, sInv, NZRadar);
      x := VecAdd(x, MatVec(K, zDiff));
      P := MatSub(P, MatMul(MatMul(K, S, NZRadar), Transpose(K, NZRadar), NX));

      assert z == m.raw[..NZRadar];
      RadarInnovationParts(f, z, cfg, lib);
      assert RadarInnovation(f, z, cfg, lib) == Innovation(zPred, S, Tc, zDiff);
      RadarUpdateSymmetric(f, z, cfg, lib);
      trace := trace + [RadarUpdated];
    }
  }

  // -----------------------------------------------------------------------
  // The loops of the two updates, on local matrices

  /** A predicted sigma point's deviation from the mean, yaw normalised by
      the two loops. */
  method StateDiff(p: Vector, mean: Vector, pi: real) returns (d: Vector)
    requires |p| == NX && |mean| == NX && pi > 0.0
    ensures d == WrapAt(VecSub(p, mean), 3, pi)
    ensures -pi <= d[3] <= pi
  {
    d := VecSub(p, mean);
    WrapToPiInRange(d[3], pi);
    var yaw := NormalizeAngle(d[3], pi);
    d := d[3 := yaw];
  }

  /** The lidar sigma points and their weighted mean. */
  method LidarSigmaMean(w: seq<real>, pts: seq<Vector>) returns (zsig: seq<Vector>, zPred: Vector)
    requires |w| == |pts| && AllLen(pts, NX)
    ensures zsig == LidarSigma(pts)
    ensures zPred == WeightedSum(w, LidarSigma(pts), NZLidar)
  {
    zsig := ZeroMatrix(|pts|, NZLidar);
    zPred := Zeros(NZLidar);
    ghost var zs := LidarSigma(pts);
    for i := 0 to |pts|
      invariant |zsig| == |pts| && AllLen(zsig, NZLidar)
      invariant forall k :: 0 <= k < i ==> zsig[k] == zs[k]
      invariant zPred == WeightedSum(w[..i], zs[..i], NZLidar)
    {
      var px := pts[i][0];
      var py := pts[i][1];
      zsig := zsig[i := [px, py]];
      WeightedSumStep(w, zs, NZLidar, i);
      zPred := VecAdd(zPred, VecScale(w[i], zsig[i]));
    }
    assert w[..|pts|] == w && zs[..|pts|] == zs;
  }

  /** The radar sigma points (range, bearing, range rate) and their weighted
      mean. */
  method RadarSigmaMean(w: seq<real>, pts: seq<Vector>, lib: Lib) returns (zsig: seq<Vector>, zPred: Vector)
    requires |w| == |pts| && AllLen(pts, NX) && RangesNonzero(pts, lib)
    ensures zsig == RadarSigma(pts, lib)
    ensures zPred == WeightedSum(w, RadarSigma(pts, lib), NZRadar)
  {
    zsig := ZeroMatrix(|pts|, NZRadar);
    zPred := Zeros(NZRadar);
    ghost var zs := RadarSigma(pts, lib);
    for i := 0 to |pts|
      invariant |zsig| == |pts| && AllLen(zsig, NZRadar)
      invariant forall k :: 0 <= k < i ==> zsig[k] == zs[k]
      invariant zPred == WeightedSum(w[..i], zs[..i], NZRadar)
    {
      var zi := RadarMeasurement(pts[i], lib);
      zsig := zsig[i := zi];
      WeightedSumStep(w, zs, NZRadar, i);
      zPred := VecAdd(zPred, VecScale(w[i], zsig[i]));
    }
    assert w[..|pts|] == w && zs[..|pts|] == zs;
  }

  /** One predicted sigma point in radar space. */
  method RadarMeasurement(p: Vector, lib: Lib) returns (z: Vector)
    requires |p| == NX && Range(p, lib) != 0.0
    ensures z == RadarPoint(p, lib)
  {
    var px := p[0];
    var py := p[1];
    var v := p[2];
    var yaw := p[3];
    var rho := lib.Sqrt(px * px + py * py);
    assert px * px + py * py == p[0] * p[0] + p[1] * p[1];
    var phi := lib.Atan2(py, px);
    var rhoD := (px * lib.Cos(yaw) * v + py * lib.Sin(yaw) * v) / rho;
    assert px * lib.Cos(yaw) * v + py * lib.Sin(yaw) * v == p[0] * lib.Cos(p[3]) * p[2] + p[1] * lib.Sin(p[3]) * p[2];
    z := [rho, phi, rhoD];
    assert RadarPoint(p, lib)[0] == rho;
    assert RadarPoint(p, lib)[1] == phi;
    assert RadarPoint(p, lib)[2] == rhoD;
  }

  /** `S` before the noise: the weighted sum of `d d^T` over the measurement
      deviations. */
  method MeasurementCovariance(w: seq<real>, zsig: seq<Vector>, zPred: Vector, n: nat) returns (S: Matrix)
    requires |w| == |zsig| && |zPred| == n && AllLen(zsig, n)
    ensures S == WeightedOuterSum(w, Deviations(zsig, zPred), Deviations(zsig, zPred), n, n)
  {
    ghost var zd := Deviations(zsig, zPred);
    S := ZeroMatrix(n, n);
    for i := 0 to |zsig|
      invariant S == WeightedOuterSum(w[..i], zd[..i], zd[..i], n, n)
    {
      var zDiff := VecSub(zsig[i], zPred);
      WeightedOuterSumStep(w, zd, zd, n, n, i);
      S := MatAdd(S, Outer(VecScale(w[i], zDiff), zDiff));
    }
    assert w[..|zsig|] == w && zd[..|zsig|] == zd;
  }

  /** A radar sigma point's deviation from the predicted measurement, bearing
      normalised by the two loops. */
  method RadarDiff(z: Vector, zPred: Vector, pi: real) returns (d: Vector)
    requires |z| == NZRadar && |zPred| == NZRadar && pi > 0.0
    ensures d == WrapAt(VecSub(z, zPred), 1, pi)
    ensures -pi <= d[1] <= pi
  {
    d := VecSub(z, zPred);
    WrapToPiInRange(d[1], pi);
    var phi := NormalizeAngle(d[1], pi);
    d := d[1 := phi];
  }

  /** The radar `S` before the noise, over bearing-normalised deviations. */
  method RadarCovariance(w: seq<real>, zsig: seq<Vector>, zPred: Vector, pi: real) returns (S: Matrix)
    requires |w| == |zsig| && |zPred| == NZRadar && AllLen(zsig, NZRadar) && pi > 0.0
    ensures S == WeightedOuterSum(w, RadarDiffs(zsig, zPred, pi), RadarDiffs(zsig, zPred, pi), NZRadar, NZRadar)
  {
    ghost var zd := RadarDiffs(zsig, zPred, pi);
    S := ZeroMatrix(NZRadar, NZRadar);
    for i := 0 to |zsig|
      invariant S == WeightedOuterSum(w[..i], zd[..i], zd[..i], NZRadar, NZRadar)
    {
      var zDiff := RadarDiff(zsig[i], zPred, pi);
      assert zDiff == zd[i];
      WeightedOuterSumStep(w, zd, zd, NZRadar, NZRadar, i);
      S := MatAdd(S, Outer(VecScale(w[i], zDiff), zDiff));
    }
    assert w[..|zsig|] == w && zd[..|zsig|] == zd;
  }

  /** The lidar cross-correlation `Tc`: yaw-normalised state deviations
      against plain measurement deviations. */
  method CrossCorrelation(w: seq<real>, pts: seq<Vector>, mean: Vector, zsig: seq<Vector>, zPred: Vector, pi: real)
    returns (Tc: Matrix)
    requires |w| == |pts| == |zsig| && AllLen(pts, NX) && |mean| == NX && pi > 0.0
    requires AllLen(zsig, |zPred|)
    ensures Tc == WeightedOuterSum(w, StateDiffs(pts, mean, pi), Deviations(zsig, zPred), NX, |zPred|)
  {
    ghost var xd := StateDiffs(pts, mean, pi);
    ghost var zd := Deviations(zsig, zPred);
    Tc := ZeroMatrix(NX, |zPred|);
    for i := 0 to |pts|
      invariant Tc == WeightedOuterSum(w[..i], xd[..i], zd[..i], NX, |zPred|)
    {
      var xDiff := StateDiff(pts[i], mean, pi);
      assert xDiff == xd[i];
      var zDiff := VecSub(zsig[i], zPred);
      WeightedOuterSumStep(w, xd, zd, NX, |zPred|, i);
      Tc := MatAdd(Tc, Outer(VecScale(w[i], xDiff), zDiff));
    }
    assert w[..|pts|] == w && xd[..|pts|] == xd && zd[..|pts|] == zd;
  }

  /** The radar cross-correlation `Tc`: yaw-normalised state deviations
      against bearing-normalised measurement deviations. */
  method RadarCrossCorrelation(w: seq<real>, pts: seq<Vector>, mean: Vector, zsig: seq<Vector>, zPred: Vector,
                               pi: real) returns (Tc: Matrix)
    requires |w| == |pts| == |zsig| && AllLen(pts, NX) && |mean| == NX && pi > 0.0
    requires |zPred| == NZRadar && AllLen(zsig, NZRadar)
    ensures Tc == WeightedOuterSum(w, StateDiffs(pts, mean, pi), RadarDiffs(zsig, zPred, pi), NX, NZRadar)
  {
    ghost var xd := StateDiffs(pts, mean, pi);
    ghost var zd := RadarDiffs(zsig, zPred, pi);
    Tc := ZeroMatrix(NX, NZRadar);
    for i := 0 to |pts|
      invariant Tc == WeightedOuterSum(w[..i], xd[..i], zd[..i], NX, NZRadar)
    {
      var xDiff := StateDiff(pts[i], mean, pi);
      assert xDiff == xd[i];
      var zDiff := RadarDiff(zsig[i], zPred, pi);
      assert zDiff == zd[i];
      WeightedOuterSumStep(w, xd, zd, NX, NZRadar, i);
      Tc := MatAdd(Tc, Outer(VecScale(w[i], xDiff), zDiff));
    }
    assert w[..|pts|] == w && xd[..|pts|] == xd && zd[..|pts|] == zd;
  }

  /** Concatenation of traces associates. Dafny knows this already; calling
      it names the one regrouping `Advance` needs, so the solver does not go
      looking for it among all the sequence terms in that proof. */
  lemma AppendAssociates(a: seq<Event>, b: seq<Event>, c: seq<Event>)
    ensures (a + b) + c == a + (b + c)
  {
  }
}
