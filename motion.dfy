/** The constant-turn-rate-and-velocity motion model applied to one
    augmented sigma point `[px, py, v, yaw, yawd, nu_a, nu_yawdd]`. */
module Motion {
  import opened LinAlg
  import opened Elementary
  import opened Sigma

  /** `fabs`. */
  function Abs(x: real): real {
    if x < 0.0 then -x else x
  }

  /** The noise-free displacement of the position over `dt` seconds:
      closed-form turn integration when the yaw rate exceeds 0.001 in size,
      straight-line integration along the heading otherwise. */
  function Displacement(v: real, yaw: real, yawd: real, dt: real, lib: Lib): (d: (real, real))
    ensures v == 0.0 || dt == 0.0 ==> d == (0.0, 0.0)
  {
    if Abs(yawd) > 0.001
    then
      assert dt == 0.0 ==> lib.Sin(yaw + yawd * dt) == lib.Sin(yaw) && lib.Cos(yaw + yawd * dt) == lib.Cos(yaw);
      assert v == 0.0 ==> v / yawd == 0.0;
      assert v == 0.0 || dt == 0.0 ==>
        v / yawd * (lib.Sin(yaw + yawd * dt) - lib.Sin(yaw)) == 0.0
        && v / yawd * (lib.Cos(yaw) - lib.Cos(yaw + yawd * dt)) == 0.0;
      (v / yawd * (lib.Sin(yaw + yawd * dt) - lib.Sin(yaw)),
       v / yawd * (lib.Cos(yaw) - lib.Cos(yaw + yawd * dt)))
    else
      assert v == 0.0 || dt == 0.0 ==> v * dt == 0.0;
      (v * dt * lib.Cos(yaw), v * dt * lib.Sin(yaw))
  }

  /** The predicted 5-dimensional state of one augmented sigma point after
      `dt` seconds: the noise-free displacement of the position, then the
      process-noise terms. */
  function MotionModel(xa: Vector, dt: real, lib: Lib): (xp: Vector)
    requires |xa| == NAug
    ensures |xp| == NX
  {
    var px, py, v, yaw, yawd, nuA, nuYawdd := xa[0], xa[1], xa[2], xa[3], xa[4], xa[5], xa[6];
    var d := Displacement(v, yaw, yawd, dt, lib);
    [ px + d.0 + 0.5 * nuA * dt * dt * lib.Cos(yaw),
      py + d.1 + 0.5 * nuA * dt * dt * lib.Sin(yaw),
      v + nuA * dt,
      yaw + yawd * dt + 0.5 * nuYawdd * dt * dt,
      yawd + nuYawdd * dt ]
  }

  /** Speed and yaw rate change only through the noise terms, and yaw
      advances by the yaw rate plus the integrated yaw-acceleration noise. */
  lemma MotionNoiseOnly(xa: Vector, dt: real, lib: Lib)
    requires |xa| == NAug
    ensures MotionModel(xa, dt, lib)[2] == xa[2] + xa[5] * dt
    ensures MotionModel(xa, dt, lib)[4] == xa[4] + xa[6] * dt
    ensures MotionModel(xa, dt, lib)[3] == xa[3] + xa[4] * dt + 0.5 * xa[6] * dt * dt
  {
  }

  /** The position entries of a turning point (yaw rate above 0.001 in
      size): the exact turn integral plus the acceleration noise along the
      current heading. */
  lemma MotionTurning(xa: Vector, dt: real, lib: Lib)
    requires |xa| == NAug && Abs(xa[4]) > 0.001
    ensures MotionModel(xa, dt, lib)[0]
         == xa[0] + xa[2] / xa[4] * (lib.Sin(xa[3] + xa[4] * dt) - lib.Sin(xa[3]))
            + 0.5 * xa[5] * dt * dt * lib.Cos(xa[3])
    ensures MotionModel(xa, dt, lib)[1]
         == xa[1] + xa[2] / xa[4] * (lib.Cos(xa[3]) - lib.Cos(xa[3] + xa[4] * dt))
            + 0.5 * xa[5] * dt * dt * lib.Sin(xa[3])
  {
  }

  /** The position entries of a point with yaw rate at most 0.001 in size:
      a straight-line step along the current heading plus the acceleration
      noise along it. */
  lemma MotionStraight(xa: Vector, dt: real, lib: Lib)
    requires |xa| == NAug && Abs(xa[4]) <= 0.001
    ensures MotionModel(xa, dt, lib)[0] == xa[0] + xa[2] * dt * lib.Cos(xa[3]) + 0.5 * xa[5] * dt * dt * lib.Cos(xa[3])
    ensures MotionModel(xa, dt, lib)[1] == xa[1] + xa[2] * dt * lib.Sin(xa[3]) + 0.5 * xa[5] * dt * dt * lib.Sin(xa[3])
  {
  }

  /** The longitudinal acceleration noise reaches the position only as
      `nu_a dt^2 / 2` along the current heading: the position differs from
      that of the noise-free point by exactly that term. */
  lemma MotionAccelerationNoise(xa: Vector, dt: real, lib: Lib)
    requires |xa| == NAug
    ensures var still := xa[5 := 0.0][6 := 0.0];
      && MotionModel(xa, dt, lib)[0] == MotionModel(still, dt, lib)[0] + 0.5 * xa[5] * dt * dt * lib.Cos(xa[3])
      && MotionModel(xa, dt, lib)[1] == MotionModel(still, dt, lib)[1] + 0.5 * xa[5] * dt * dt * lib.Sin(xa[3])
  {
    var still := xa[5 := 0.0][6 := 0.0];
    var d := Displacement(xa[2], xa[3], xa[4], dt, lib);
    assert still[0] == xa[0] && still[1] == xa[1] && still[2] == xa[2] && still[3] == xa[3] && still[4] == xa[4];
    assert MotionModel(still, dt, lib)[0] == xa[0] + d.0 + 0.5 * 0.0 * dt * dt * lib.Cos(xa[3]);
    assert MotionModel(still, dt, lib)[1] == xa[1] + d.1 + 0.5 * 0.0 * dt * dt * lib.Sin(xa[3]);
  }

  /** The yaw-acceleration noise does not affect the predicted position. */
  lemma MotionYawNoiseSparesPosition(xa: Vector, dt: real, nuYawdd: real, lib: Lib)
    requires |xa| == NAug
    ensures MotionModel(xa[6 := nuYawdd], dt, lib)[..2] == MotionModel(xa, dt, lib)[..2]
  {
    var other := xa[6 := nuYawdd];
    assert other[0] == xa[0] && other[1] == xa[1] && other[2] == xa[2] && other[3] == xa[3]
        && other[4] == xa[4] && other[5] == xa[5];
    var d := Displacement(xa[2], xa[3], xa[4], dt, lib);
    assert MotionModel(other, dt, lib)[1] == xa[1] + d.1 + 0.5 * xa[5] * dt * dt * lib.Sin(xa[3]);
    assert MotionModel(xa, dt, lib)[1] == xa[1] + d.1 + 0.5 * xa[5] * dt * dt * lib.Sin(xa[3]);
    assert MotionModel(other, dt, lib)[0] == xa[0] + d.0 + 0.5 * xa[5] * dt * dt * lib.Cos(xa[3]);
    assert MotionModel(xa, dt, lib)[0] == xa[0] + d.0 + 0.5 * xa[5] * dt * dt * lib.Cos(xa[3]);
  }

  /** At zero elapsed time both branches return the first five entries of the
      augmented point unchanged. */
  lemma MotionAtZeroDt(xa: Vector, lib: Lib)
    requires |xa| == NAug
    ensures MotionModel(xa, 0.0, lib) == xa[..NX]
  {
    var yaw, yawd := xa[3], xa[4];
    assert yaw + yawd * 0.0 == yaw;
    var xp := MotionModel(xa, 0.0, lib);
    assert xp[0] == xa[0] && xp[1] == xa[1];
    assert xp[2] == xa[2] && xp[3] == xa[3] && xp[4] == xa[4];
  }

  /** Straight ahead at 10 m/s with no yaw, no yaw rate and no noise, one
      second moves the object 10 * cos(0) along x and 10 * sin(0) along y. */
  lemma MotionStraightLine(lib: Lib)
    requires lib.Cos(0.0) == 1.0 && lib.Sin(0.0) == 0.0
    ensures MotionModel([0.0, 0.0, 10.0, 0.0, 0.0, 0.0, 0.0], 1.0, lib) == [10.0, 0.0, 10.0, 0.0, 0.0]
  {
  }

  /** The predicted sigma points: every augmented point through the motion
      model. */
  function PredictSigmaPoints(pts: seq<Vector>, dt: real, lib: Lib): (pred: seq<Vector>)
    requires AllLen(pts, NAug)
    ensures |pred| == |pts| && AllLen(pred, NX)
  {
    seq(|pts|, i requires 0 <= i < |pts| => MotionModel(pts[i], dt, lib))
  }

  /** At zero elapsed time every predicted sigma point is the state part of
      its augmented point. */
  lemma PredictSigmaPointsAtZeroDt(pts: seq<Vector>, lib: Lib)
    requires AllLen(pts, NAug)
    ensures forall i :: 0 <= i < |pts| ==> PredictSigmaPoints(pts, 0.0, lib)[i] == pts[i][..NX]
  {
    forall i | 0 <= i < |pts| ensures PredictSigmaPoints(pts, 0.0, lib)[i] == pts[i][..NX] {
      MotionAtZeroDt(pts[i], lib);
    }
  }
}
