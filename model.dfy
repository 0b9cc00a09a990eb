/** The filter's data: its fixed parameters, the measurement record it
    consumes, the value of its mutable state, and the events of one call. */
module Model {
  import opened LinAlg
  import opened Sigma

  /** Noise standard deviations and the spreading parameter. */
  datatype Config = Config(
    stdA: real,       // process noise, longitudinal acceleration (m/s^2)
    stdYawdd: real,   // process noise, yaw acceleration (rad/s^2)
    stdLaspx: real,   // laser noise, x position (m)
    stdLaspy: real,   // laser noise, y position (m)
    stdRadr: real,    // radar noise, range (m)
    stdRadphi: real,  // radar noise, bearing (rad)
    stdRadrd: real,   // radar noise, range rate (m/s)
    lambda: real)     // sigma-point spreading parameter

  /** The values the constructor sets. */
  const UkfConfig: Config := Config(
    stdA := 0.8, stdYawdd := 0.6,
    stdLaspx := 0.15, stdLaspy := 0.15,
    stdRadr := 0.3, stdRadphi := 0.03, stdRadrd := 0.3,
    lambda := 0.0)

  /** The weights are defined: `lambda + n_aug != 0`. */
  predicate ConfigOk(cfg: Config) {
    cfg.lambda + NAug as real != 0.0
  }

  /** The constructor's values define the weights (`lambda + n_aug` is 7)
      and every noise standard deviation is positive. */
  lemma UkfConfigValues()
    ensures ConfigOk(UkfConfig) && UkfConfig.lambda + NAug as real == 7.0
    ensures && UkfConfig.stdA > 0.0 && UkfConfig.stdYawdd > 0.0
            && UkfConfig.stdLaspx > 0.0 && UkfConfig.stdLaspy > 0.0
            && UkfConfig.stdRadr > 0.0 && UkfConfig.stdRadphi > 0.0 && UkfConfig.stdRadrd > 0.0
  {
  }

  datatype SensorType = Laser | Radar | Other

  /** A measurement: sensor tag, raw values (laser x, y; radar range,
      bearing, range rate) and a timestamp in microseconds. */
  datatype MeasurementPackage = MeasurementPackage(sensor: SensorType, raw: seq<real>, timestamp: int)

  /** The raw entries the filter reads exist: two for a laser reading and for
      a radar reading at bootstrap, three for a radar update, two for the
      lidar update that any other tag receives once initialised. */
  predicate Readable(m: MeasurementPackage, initialized: bool) {
    match m.sensor
    case Laser => |m.raw| >= 2
    case Radar => |m.raw| >= (if initialized then 3 else 2)
    case Other => initialized ==> |m.raw| >= 2
  }

  /** The estimator's mutable state: mean `x`, covariance `P`, the augmented
      and the predicted sigma points (column by column), the time of the last
      measurement, the initialisation flag and the two NIS values. */
  datatype Filter = Filter(
    x: Vector,
    P: Matrix,
    xsigAug: seq<Vector>,
    xsigPred: seq<Vector>,
    timeUs: int,
    initialized: bool,
    nisLaser: real,
    nisRadar: real)

  /** Every vector and matrix has the size the code allocates. */
  predicate WellShaped(f: Filter) {
    && |f.x| == NX
    && IsMatrix(f.P, NX, NX)
    && |f.xsigAug| == NSigma && AllLen(f.xsigAug, NAug)
    && |f.xsigPred| == NSigma && AllLen(f.xsigPred, NX)
  }

  /** What one call did: a prediction over `dt` seconds, or an update. */
  datatype Event = Predicted(dt: real) | LidarUpdated | RadarUpdated
}
