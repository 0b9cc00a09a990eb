# Unscented Kalman Filter: a Dafny model

This project models the filter class `UKF` of `src/ukf.cpp`. The filter is an
Unscented Kalman Filter with a constant turn rate and velocity (CTRV) motion
model. It fuses two kinds of reading:

- lidar readings give a position `(px, py)`;
- radar readings give range, bearing and range rate `(rho, phi, rho_dot)`.

The state is `[px, py, v, yaw, yaw_rate]`. The augmented state appends the
longitudinal and yaw accelerations, giving 7 entries and 15 sigma points.

The model has two layers.

**The value model** holds a function for every stage of the filter:

- the weights and the augmented sigma points (`Sigma`);
- the CTRV motion model (`Motion`);
- one prediction (`PredictStep`);
- the lidar and radar updates (`Update`);
- one full call of `ProcessMeasurement` (`Lifecycle`): bootstrap, split the
  elapsed time into sub-steps, predict, dispatch on the sensor.

The properties the code promises are proved about these functions as lemmas.

**The class** `Ukf.UKF` keeps the filter's state in mutable fields:

- `x`, `P`, `xsigAug`, `xsigPred`;
- `timeUs`, `isInitialized`;
- `nisLaser`, `nisRadar`.

Its methods follow the loops of the original, and each is proved to leave the
object in the state that the matching value-model function computes. Every
method also keeps the class invariant `Valid()`: the matrices have their sizes
and the covariance `P` is symmetric. A ghost
`trace` records every prediction step and update in order.

Several things become exact reals or parameters:

- **Arithmetic.** Reals stand in for doubles.
- **Vectors and matrices.** Vectors are `seq<real>`; matrices are row-major
  `seq<seq<real>>`.
- **Sigma-point matrices.** These are stored column by column, since the code
  works on columns.
- **Elementary routines.** `sin`, `cos`, `sqrt`, `atan2`, Eigen's Cholesky
  factor and inverse, and `M_PI` form one `Lib` record. The record is passed
  to the constructor. All that is known of it is that pi is positive and that
  the two matrix routines map square matrices to square matrices of the same
  size.

Modules, in dependency order:

| module | file |
|---|---|
| `LinAlg` | `linalg.dfy` |
| `Angles` | `angles.dfy` |
| `Elementary` | `elementary.dfy` |
| `Sigma` | `sigma.dfy` |
| `Model` | `model.dfy` |
| `Motion` | `motion.dfy` |
| `PredictStep` | `predict.dfy` |
| `Update` | `update.dfy` |
| `Lifecycle` | `lifecycle.dfy` |
| `Ukf` | `ukf.dfy` |

## Model

| member | source | states |
|---|---|---|
| Model.UkfConfigValues | src/ukf.cpp:24-62 | The constructor's constants define the weights (`lambda + n_aug = 7`), and every noise standard deviation is positive. |
| Angles.NormalizeAngle | src/ukf.cpp:233-236 | The two normalisation loops return exactly the closed form `WrapToPi`: the angle shifted by a whole number of turns into [-pi, pi]. |
| Angles.SubtractTurns | src/ukf.cpp:233-234 | The first loop subtracts `down` whole turns, with `down <= 0`, and ends at or below pi. It ends strictly above -pi if it ran at all, and it leaves an angle already at or below pi untouched. |
| Angles.AddTurns | src/ukf.cpp:235-236 | The second loop, on an angle at or below pi, adds `up >= 0` whole turns and ends in [-pi, pi]. It ends strictly below pi if it ran, and it leaves an angle already at or above -pi untouched. |
| Angles.WrapToPiInRange | src/ukf.cpp:233-236 | A normalised angle lies in [-pi, pi]. An angle above pi lands in (-pi, pi]; one below -pi lands in [-pi, pi). |
| Angles.WrapToPiFixes | src/ukf.cpp:233-236 | An angle already in [-pi, pi] is left unchanged. |
| Angles.WrapToPiShift | src/ukf.cpp:233-236 | Normalisation changes an angle by a whole multiple of 2 pi. |
| Angles.WrapToPiUnique | src/ukf.cpp:233-236 | Any shift by whole turns into [-pi, pi] that meets the loops' end conditions equals `WrapToPi`, so the closed form is the only possible result of the loops. |
| Angles.WrapFourPiPlusTenth | src/ukf.cpp:233-236 | Example: 4 pi + 0.1 normalises to 0.1. |
| Angles.WrapEachInRange | src/ukf.cpp:228-239 | Normalising one entry of every deviation puts that entry in [-pi, pi] and leaves every other entry unchanged. |
| Sigma.Weights | src/ukf.cpp:70-74 | 15 weights: the first is `lambda / (lambda + 7)`, every other one is `0.5 / (lambda + 7)`. |
| Sigma.WeightsSumToOne | src/ukf.cpp:62-74 | The weights sum to 1. At `lambda = 0`, the value the constructor sets, the centre weight is 0. |
| Sigma.AugmentedMean | src/ukf.cpp:152-160 | The augmented mean is the state followed by two zeros. |
| Sigma.AugmentedCov | src/ukf.cpp:156-166 | The augmented covariance holds `P` in its top-left 5 x 5 block, `std_a^2` and `std_yawdd^2` on the last two diagonal entries, and zero everywhere else. |
| Sigma.AugmentedCovSymmetric | src/ukf.cpp:162-166 | The augmented covariance of a symmetric `P` is symmetric. |
| Sigma.SigmaPoints | src/ukf.cpp:171-176 | 15 sigma points of 7 entries each. |
| Sigma.SigmaPoint | src/ukf.cpp:172-175 | Point 0 is the mean. Point `i+1` adds `c` times column `i` of the square root; point `i+1+7` subtracts it. |
| Sigma.SigmaPointsMirror | src/ukf.cpp:172-175 | Point 0 is the mean. Points `i+1` and `i+1+7` are mirror images about the mean, and point `i+1` lies `c` times column `i` away from it. |
| Sigma.SigmaPointsWeightedMean | src/ukf.cpp:171-176 | For any square root and any scale, the weighted sum of the sigma points is the augmented mean, under the weights set at lines 70-74. |
| Sigma.ComponentMean | src/ukf.cpp:172-175 | The same, one coordinate at a time. |
| Sigma.MirroredMean | src/ukf.cpp:70-74 | The weighted sum of a row whose mirrored entries average to its first entry equals that first entry, as for the mirrored sigma points built at lines 171-176. |
| Motion.Displacement | src/ukf.cpp:192-199 | The noise-free displacement in either yaw-rate branch. A point with zero speed, or zero elapsed time, does not move. |
| Motion.MotionModel | src/ukf.cpp:179-219 | The CTRV model maps one augmented sigma point to a 5-entry state. Its entries are stated by the lemmas below. |
| Motion.MotionTurning | src/ukf.cpp:192-207 | With a yaw rate above 0.001 in size, the position is the closed-form turn integral `px + v/yawd (sin(yaw + yawd dt) - sin(yaw))`, `py + v/yawd (cos(yaw) - cos(yaw + yawd dt))`, plus `nu_a dt^2 / 2` along the heading. |
| Motion.MotionStraight | src/ukf.cpp:196-207 | With a yaw rate of at most 0.001 in size, the position moves `v dt` along the heading, plus `nu_a dt^2 / 2` along it. |
| Motion.MotionAccelerationNoise | src/ukf.cpp:205-207 | The position differs from that of the same point without noise by exactly `nu_a dt^2 / 2 (cos(yaw), sin(yaw))`. |
| Motion.MotionYawNoiseSparesPosition | src/ukf.cpp:188-211 | The yaw-acceleration noise does not change the predicted position. |
| Motion.MotionNoiseOnly | src/ukf.cpp:201-211 | Speed changes only by `nu_a dt`, yaw rate only by `nu_yawdd dt`, and yaw by `yaw_rate dt + nu_yawdd dt^2 / 2`. |
| Motion.MotionAtZeroDt | src/ukf.cpp:179-219 | Over zero time every sigma point keeps its first five entries. |
| Motion.MotionStraightLine | src/ukf.cpp:196-198 | Example: at 10 m/s, heading 0 and zero yaw rate, one second moves the point 10 m along x. |
| Motion.PredictSigmaPoints | src/ukf.cpp:179-219 | One predicted 5-entry point per augmented point. |
| Motion.PredictSigmaPointsAtZeroDt | src/ukf.cpp:179-219 | Over zero time each predicted point is its augmented point without the noise entries. |
| PredictStep.StateDiffs | src/ukf.cpp:230-236 | One 5-entry deviation per predicted point. |
| PredictStep.StateCovariance | src/ukf.cpp:227-239 | The predicted covariance is 5 x 5. |
| PredictStep.AugmentedSigmaPoints | src/ukf.cpp:152-176 | 15 augmented sigma points of 7 entries. |
| PredictStep.Predict | src/ukf.cpp:151-240 | One prediction keeps the time, the initialisation flag and both NIS values, and returns a well-shaped state. |
| PredictStep.PredictParts | src/ukf.cpp:151-240 | A prediction, stage by stage: sigma points from the old mean and covariance; each point through the motion model; a mean that is their weighted sum; a covariance that is the weighted sum of the yaw-normalised outer products about that mean. |
| PredictStep.PredictCovSymmetric | src/ukf.cpp:227-239 | The predicted covariance is symmetric. |
| PredictStep.AugmentedSigmaPointsMean | src/ukf.cpp:152-176 | The augmented sigma points average, under the weights, to the augmented mean, whatever the Cholesky factor. |
| PredictStep.PredictZeroDtKeepsMean | src/ukf.cpp:151-225 | Predicting over zero time leaves the mean unchanged. |
| PredictStep.StateDiffsWrapped | src/ukf.cpp:230-236 | Every yaw deviation in the covariance lies in [-pi, pi]; every other entry is the plain difference from the mean. |
| Update.LidarPoint | src/ukf.cpp:266-271 | A sigma point's lidar measurement is its first two entries. |
| Update.LidarSigma | src/ukf.cpp:264-275 | One 2-entry measurement per sigma point. |
| Update.Range | src/ukf.cpp:368 | The range of a state is `sqrt` of the squared Euclidean norm of its position `(px, py)`. |
| Update.RadarPoint | src/ukf.cpp:361-374 | A 3-entry radar measurement: range, bearing, range rate. |
| Update.RadarSigma | src/ukf.cpp:359-378 | One 3-entry measurement per sigma point. |
| Update.LidarNoise | src/ukf.cpp:284-286 | The lidar noise `R` is 2 x 2. |
| Update.RadarNoise | src/ukf.cpp:392-395 | The radar noise `R` is 3 x 3. |
| Update.Assemble | src/ukf.cpp:277-317 | Prediction, covariance, cross-correlation and innovation have matching sizes. |
| Update.LidarInnovation | src/ukf.cpp:249-320 | The lidar innovation is well-shaped for 2 measurement entries. |
| Update.RadarDiffs | src/ukf.cpp:381-386 | One bearing-normalised 3-entry deviation per measurement. |
| Update.RadarInnovation | src/ukf.cpp:341-440 | The radar innovation is well-shaped for 3 measurement entries. |
| Update.Gain | src/ukf.cpp:326 | The Kalman gain is 5 x n. |
| Update.Correct | src/ukf.cpp:322-330 | The corrected mean has 5 entries and the corrected covariance is 5 x 5. |
| LinAlg.SandwichSymmetric | src/ukf.cpp:330 | `K S K^T` is symmetric whenever `S` is. |
| Update.CorrectSymmetric | src/ukf.cpp:322-330 | The correction `P - K S K^T` keeps a symmetric `P` symmetric, given a symmetric `S`. |
| Update.LidarUpdate | src/ukf.cpp:242-331 | The lidar update changes only `x`, `P` and the lidar NIS. The sigma points, time, initialisation flag and radar NIS are unchanged. |
| Update.RadarUpdate | src/ukf.cpp:334-452 | The radar update changes only `x`, `P` and the radar NIS. The sigma points, time, initialisation flag and lidar NIS are unchanged. |
| Update.LidarUpdateSymmetric | src/ukf.cpp:242-331 | The lidar update returns a symmetric covariance. |
| Update.RadarUpdateSymmetric | src/ukf.cpp:334-452 | The radar update returns a symmetric covariance. |
| Update.OuterSumPlusNoiseSymmetric | src/ukf.cpp:278-287 | A weighted sum of `z_diff z_diff^T` plus a symmetric noise matrix is symmetric. |
| Update.NoiseSymmetric | src/ukf.cpp:284-286 | Both noise matrices are symmetric (diagonal). |
| Update.LidarInnovationParts | src/ukf.cpp:264-320 | Lidar innovation: `z_pred` is the weighted sum of the measurement points; `S` is the weighted outer sum of their deviations plus `R`; `Tc` pairs the yaw-normalised state deviations with the measurement deviations; `y = z - z_pred`. |
| Update.RadarInnovationParts | src/ukf.cpp:359-440 | Radar innovation: the same with the radar measurement model, every measurement deviation's bearing normalised in `S` and `Tc`, and `y`'s bearing normalised. |
| Update.LidarCovSymmetric | src/ukf.cpp:277-287 | The lidar `S` is symmetric. |
| Update.RadarCovSymmetric | src/ukf.cpp:380-396 | The radar `S` is symmetric. |
| Update.LidarSigmaRows | src/ukf.cpp:264-275 | The two rows of the lidar `Zsig` are rows 0 and 1 of `Xsig_pred`, and their weighted mean is the first two entries of the state points' weighted mean. |
| Update.LidarPredictedPosition | src/ukf.cpp:264-275 | The predicted lidar measurement is the position part of the weighted mean of the predicted sigma points, which is the predicted position when `x` is that mean. |
| Update.RadarBearingsWrapped | src/ukf.cpp:381-386 | Every bearing deviation used in `S` and `Tc`, and the innovation's bearing, lies in [-pi, pi]. |
| Update.RadarInnovationBearingWrapped | src/ukf.cpp:433-440 | The radar innovation's bearing lies in [-pi, pi]. |
| Update.ZeroInnovationKeepsMean | src/ukf.cpp:319-330 | When the measurement equals the prediction, the corrected mean is the old mean and the NIS is 0. |
| Lifecycle.Elapsed | src/ukf.cpp:128 | The elapsed time in seconds: times `1e6` it is the difference of the two microsecond timestamps, and it is non-negative exactly when the reading is not older than the stored time. |
| Lifecycle.Schedule | src/ukf.cpp:131-136 | The prediction steps for `dt`: there is always at least one. |
| Lifecycle.ScheduleSum | src/ukf.cpp:131-136 | The steps sum to the elapsed time. |
| Lifecycle.ScheduleShape | src/ukf.cpp:131-136 | Every step but the last is 0.05. The last is at most 0.1, and above 0.05 when the elapsed time is above 0.1. The schedule is the single step `[dt]` exactly when `dt <= 0.1`. |
| Lifecycle.ScheduleAdvance | src/ukf.cpp:131-135 | While more than 0.1 remains, issuing a 0.05 step keeps the issued steps plus the rest's schedule equal to the whole schedule. |
| Lifecycle.ScheduleFinish | src/ukf.cpp:136 | Once at most 0.1 remains, the final step completes the schedule. |
| Lifecycle.ScheduleExamples | src/ukf.cpp:131-136 | Examples: 0.25 s gives `[0.05, 0.05, 0.05, 0.1]`; 0.1 s gives one step; a negative elapsed time gives one step of that length. |
| Lifecycle.PredictMany | src/ukf.cpp:131-136 | Predicting over a list of steps keeps the time, the initialisation flag and both NIS values. |
| Lifecycle.PredictManyStep | src/ukf.cpp:131-136 | One more step predicts once more from the state after the earlier steps. |
| Lifecycle.PredictManySymmetric | src/ukf.cpp:131-136 | After at least one prediction step the covariance is symmetric. |
| Lifecycle.PredictionEvents | src/ukf.cpp:131-136 | One prediction event per step. |
| Lifecycle.PredictionEventsStep | src/ukf.cpp:131-136 | One more step appends one prediction event. |
| Lifecycle.Bootstrap | src/ukf.cpp:99-125 | Bootstrapping returns a well-shaped state. |
| Lifecycle.PredictedState | src/ukf.cpp:127-136 | The state after the prediction steps of an initialised call is well-shaped. |
| Lifecycle.Process | src/ukf.cpp:97-144 | One call returns a well-shaped state. |
| Lifecycle.ProcessSymmetric | src/ukf.cpp:97-144 | An initialised filter always comes out of a call with a symmetric covariance, and a call never breaks a symmetric one. |
| Lifecycle.ProcessUninitialized | src/ukf.cpp:99-125 | Before initialisation a call only bootstraps and issues no prediction or update. |
| Lifecycle.BootstrapRadarState | src/ukf.cpp:100-109 | Bootstrap from radar: position `(cos(phi) rho, sin(phi) rho)`, zero speed, yaw and yaw rate, identity covariance, the reading's time. |
| Lifecycle.BootstrapLaser | src/ukf.cpp:110-124 | Bootstrap from laser: the reading's position, zeros elsewhere, identity covariance, initialised, the reading's time, no events. |
| Lifecycle.BootstrapRadar | src/ukf.cpp:100-124 | The first radar reading initialises from its polar position, with identity covariance and the reading's time, and issues no events. |
| Lifecycle.BootstrapOther | src/ukf.cpp:112-114 | Before initialisation, a reading from any other sensor leaves the filter entirely unchanged. |
| Lifecycle.BootstrapExamples | src/ukf.cpp:99-125 | Examples: laser `(5, 3)` gives `x = [5, 3, 0, 0, 0]`; radar `(5, 0, 0)` gives `x = [5, 0, 0, 0, 0]`. |
| Lifecycle.ProcessInitialized | src/ukf.cpp:127-143 | After initialisation: the time becomes the reading's timestamp and the flag stays set. The events are the prediction steps for `(timestamp - time_us) / 1e6` seconds, then one update. A radar reading gets the radar update; every other sensor gets the lidar update. |
| Lifecycle.InitializedIsTerminal | src/ukf.cpp:99-125 | Initialisation is one-way. Before it, exactly laser and radar readings initialise the filter. |
| Ukf.UKF.constructor | src/ukf.cpp:10-93 | A new filter keeps the routines it is given. It is uninitialised, with zero mean, time 0, both NIS 0, both toggles on and an empty trace. Its weights are fixed. |
| Ukf.UKF.ProcessMeasurement | src/ukf.cpp:97-144 | The new state and the events appended to the trace are exactly those of the value model's `Process`. |
| Ukf.UKF.Advance | src/ukf.cpp:127-143 | An initialised call stores the timestamp, predicts over the elapsed time and then updates: the radar update for radar, the lidar update otherwise. |
| Ukf.UKF.Update | src/ukf.cpp:138-143 | Dispatch: a radar reading gets the radar update, any other the lidar update, with one matching event. |
| Ukf.UKF.Initialize | src/ukf.cpp:99-125 | The bootstrap branch leaves the state that `Bootstrap` computes and records no event. |
| Ukf.UKF.PredictOver | src/ukf.cpp:128-136 | The sub-stepping loop leaves the state of predicting over `Schedule(delta_t)` and records one prediction event per step. |
| Ukf.UKF.PredictNext | src/ukf.cpp:131-136 | One more loop step extends both the predicted state and the trace by one step. |
| Ukf.UKF.Prediction | src/ukf.cpp:151-240 | The in-place prediction leaves the state that `Predict` computes and appends one prediction event. |
| Ukf.UKF.SpreadAndMove | src/ukf.cpp:152-219 | The augmented sigma points are those of the current mean and covariance, and the predicted points are their images under the motion model. |
| Ukf.UKF.PredictMoments | src/ukf.cpp:221-239 | The mean is the weighted sum of the predicted points, and the covariance is the weighted yaw-normalised outer sum about that mean. |
| Ukf.UKF.GenerateSigmaPoints | src/ukf.cpp:152-176 | The sigma-point loop fills the augmented points of the current mean and covariance. |
| Ukf.UKF.MoveSigmaPoints | src/ukf.cpp:178-219 | The motion loop writes every point's image under the motion model. |
| Ukf.UKF.PredictMean | src/ukf.cpp:221-225 | The mean loop computes the weighted sum of the predicted points. |
| Ukf.UKF.PredictCovariance | src/ukf.cpp:227-239 | The covariance loop computes the weighted sum of `x_diff x_diff^T` over the yaw-normalised deviations. |
| Ukf.UKF.UpdateLidar | src/ukf.cpp:242-331 | The in-place lidar update leaves the state that `LidarUpdate` computes from the reading's two entries, and appends a lidar event. |
| Ukf.UKF.UpdateRadar | src/ukf.cpp:334-452 | The in-place radar update leaves the state that `RadarUpdate` computes from the reading's three entries, and appends a radar event. |
| Ukf.StateDiff | src/ukf.cpp:230-236 | A deviation from the mean with its yaw entry normalised; that entry lies in [-pi, pi]. |
| Ukf.LidarSigmaMean | src/ukf.cpp:264-275 | The loop builds the lidar `Zsig` and its weighted mean `z_pred`. |
| Ukf.RadarSigmaMean | src/ukf.cpp:359-378 | The loop builds the radar `Zsig` and its weighted mean `z_pred`. |
| Ukf.RadarMeasurement | src/ukf.cpp:361-374 | One sigma point's range, bearing and range rate. |
| Ukf.MeasurementCovariance | src/ukf.cpp:277-281 | The loop computes the weighted sum of `z_diff z_diff^T`. |
| Ukf.RadarDiff | src/ukf.cpp:382-386 | A radar deviation with its bearing normalised into [-pi, pi]. |
| Ukf.RadarCovariance | src/ukf.cpp:380-389 | The loop computes the weighted sum of the bearing-normalised `z_diff z_diff^T`. |
| Ukf.CrossCorrelation | src/ukf.cpp:302-317 | The loop computes `Tc` from the yaw-normalised state deviations and the measurement deviations. |
| Ukf.RadarCrossCorrelation | src/ukf.cpp:413-431 | The same with bearing-normalised measurement deviations. |

## Left out

**Arithmetic**
- Floating point. Reals are exact, so rounding, overflow, NaN and `double`
  comparison behaviour are not modelled.
- `delta_t -= dt`. On reals the loop subtracts exactly 0.05, so the number of
  steps the code takes can differ from the model's by one near multiples of
  0.05.
- Timestamps are unbounded integers. The 64-bit `timestamp_` and its
  subtraction are not modelled for overflow.

**Opaque numerics**
- `sin`, `cos`, `sqrt`, `atan2`, `M_PI`, the Cholesky factor and the inverse
  are parameters (`Elementary.Lib`) with no properties beyond shape. As a
  result, these are not stated:
  - positive semi-definiteness of `P` and `S`, the Cholesky factor being a
    square root, and the inverse being an inverse;
  - NIS statistics.
- `Update.RangesNonzero` / `Ukf.UKF.UpdateRadar`: the radar update requires
  every predicted sigma point to be at non-zero range. The code divides by
  `rho` without a check (`src/ukf.cpp:370`), and the model does not give that
  division a value. `Lifecycle.ProcessDefined` carries the same condition up
  to `Lifecycle.Process` and `Ukf.UKF.ProcessMeasurement`. It is applied to
  the sigma points of that call's own prediction.

**The NIS**
- `Update.Correct` computes it as `y^T (S^-1 y)`. The code computes
  `(z_diff^T S^-1) z_diff`. The two agree in exact arithmetic.

**The constructor**
- It does not define `P`, `Xsig_pred_` or `Xsig_aug_`. Eigen leaves them
  uninitialised; the model holds zero matrices of the right sizes, and
  `Ukf.UKF.constructor` states only their shapes.
- It sets `use_laser_` and `use_radar_` to true. No code reads them, and the
  model does the same: it has no skip branch.

**Stage methods**
- The class splits `Prediction` into stage methods: `GenerateSigmaPoints`,
  `MoveSigmaPoints`, `PredictMean`, `PredictCovariance`, `SpreadAndMove` and
  `PredictMoments`.
- The class splits `ProcessMeasurement` into `Initialize`, `Advance`,
  `PredictOver`, `PredictNext` and `Update`.
- The updates' inner loops are module-level methods over local values.
- Each stage method states exactly what its part of the source loop computes.

**Angle range**
- The normalisation loops leave an angle in the closed interval [-pi, pi],
  since an angle equal to -pi or pi passes both loop guards unchanged. The
  model follows the code.

**What is not proved**
- `PredictStep.PredictZeroDtKeepsMean` states only the mean. The covariance
  after a zero-length prediction depends on the Cholesky factor, of which
  nothing is known.

**Outside the filter**
- The destructor, the `MeasurementPackage` parsing, tools and `main` are not
  part of this model.
