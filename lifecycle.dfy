/** What one call of the filter's measurement entry point does, as a function
    of the state: bootstrap from the first usable measurement, otherwise
    predict forward over the elapsed time in sub-steps of at most 0.1 s and
    apply the update for the measurement's sensor. */
module Lifecycle {
  import opened LinAlg
  import opened Elementary
  import opened Sigma
  import opened Model
  import opened PredictStep
  import opened Update

  /** The fixed sub-step of the prediction loop, in seconds. */
  const SubStep: real := 0.05
  /** The loop predicts in sub-steps while more than this remains. */
  const MaxStep: real := 0.1

  /** Elapsed seconds between a timestamp and the stored time, both in
      microseconds. */
  function Elapsed(timestamp: int, timeUs: int): (dt: real)
    ensures dt * 1000000.0 == (timestamp - timeUs) as real
    ensures dt >= 0.0 <==> timestamp >= timeUs
  {
    (timestamp - timeUs) as real / 1000000.0
  }

  /** The prediction steps for `dt` seconds: 0.05 s while more than 0.1 s
      remains, then the remainder. */
  function Schedule(dt: real): (steps: seq<real>)
    ensures |steps| >= 1
    decreases (dt * 20.0).Floor
  {
    if dt > MaxStep then [SubStep] + Schedule(dt - SubStep) else [dt]
  }

  /** The steps cover the elapsed time exactly. */
  lemma {:induction false} ScheduleSum(dt: real)
    ensures Sum(Schedule(dt)) == dt
    decreases (dt * 20.0).Floor
  {
    if dt > MaxStep {
      ScheduleSum(dt - SubStep);
      SumPrepend(SubStep, Schedule(dt - SubStep));
    }
  }

  /** Every step but the last is 0.05 s; the last is at most 0.1 s, and more
      than 0.05 s whenever the elapsed time exceeded 0.1 s. At most 0.1 s
      elapsed is predicted in one step. */
  lemma {:induction false} ScheduleShape(dt: real)
    ensures var s := Schedule(dt);
      && (forall k :: 0 <= k < |s| - 1 ==> s[k] == SubStep)
      && s[|s| - 1] <= MaxStep
      && (dt > MaxStep ==> s[|s| - 1] > SubStep)
      && (dt <= MaxStep <==> s == [dt])
    decreases (dt * 20.0).Floor
  {
    if dt > MaxStep {
      var rest := Schedule(dt - SubStep);
      ScheduleShape(dt - SubStep);
      var s := Schedule(dt);
      assert s == [SubStep] + rest;
      forall k | 0 <= k < |s| - 1 ensures s[k] == SubStep {
        if k > 0 {
          assert s[k] == rest[k - 1];
        }
      }
    }
  }

  /** While more than 0.1 s remains, the next step is 0.05 s. */
  lemma ScheduleAdvance(issued: seq<real>, remaining: real, dt: real)
    requires issued + Schedule(remaining) == Schedule(dt) && remaining > MaxStep
    ensures (issued + [SubStep]) + Schedule(remaining - SubStep) == Schedule(dt)
  {
    assert Schedule(remaining) == [SubStep] + Schedule(remaining - SubStep);
    assert (issued + [SubStep]) + Schedule(remaining - SubStep) == issued + ([SubStep] + Schedule(remaining - SubStep));
  }

  /** Once at most 0.1 s remains, the remainder is the last step. */
  lemma ScheduleFinish(issued: seq<real>, remaining: real, dt: real)
    requires issued + Schedule(remaining) == Schedule(dt) && remaining <= MaxStep
    ensures issued + [remaining] == Schedule(dt)
  {
  }

  /** A quarter of a second is three sub-steps and a remainder of 0.1 s; a
      negative elapsed time is predicted in one (backward) step. */
  lemma ScheduleExamples()
    ensures Schedule(0.25) == [0.05, 0.05, 0.05, 0.1]
    ensures Schedule(0.1) == [0.1]
    ensures Schedule(-0.5) == [-0.5]
  {
    assert Schedule(0.1) == [0.1];
    assert Schedule(0.15) == [0.05, 0.1];
    assert Schedule(0.2) == [0.05, 0.05, 0.1];
  }

  /** The state after predicting over every step in order. */
  function PredictMany(f: Filter, steps: seq<real>, cfg: Config, lib: Lib): (g: Filter)
    requires WellShaped(f) && lib.Valid() && ConfigOk(cfg)
    ensures WellShaped(g)
    ensures g.timeUs == f.timeUs && g.initialized == f.initialized
    ensures g.nisLaser == f.nisLaser && g.nisRadar == f.nisRadar
    decreases |steps|
  {
    if |steps| == 0 then f
    else Predict(PredictMany(f, steps[..|steps| - 1], cfg, lib), steps[|steps| - 1], cfg, lib)
  }

  /** One more step predicts once more from the state after the others. */
  lemma PredictManyStep(f: Filter, steps: seq<real>, dt: real, cfg: Config, lib: Lib)
    requires WellShaped(f) && lib.Valid() && ConfigOk(cfg)
    ensures PredictMany(f, steps + [dt], cfg, lib) == Predict(PredictMany(f, steps, cfg, lib), dt, cfg, lib)
  {
    var s := steps + [dt];
    assert s[..|s| - 1] == steps;
  }

  /** One `Predicted` event per step. */
  function PredictionEvents(steps: seq<real>): (es: seq<Event>)
    ensures |es| == |steps|
  {
    seq(|steps|, i requires 0 <= i < |steps| => Predicted(steps[i]))
  }

  /** One more step adds one more event. */
  lemma PredictionEventsStep(before: seq<Event>, steps: seq<real>, dt: real)
    ensures before + PredictionEvents(steps + [dt]) == (before + PredictionEvents(steps)) + [Predicted(dt)]
  {
    assert PredictionEvents(steps + [dt]) == PredictionEvents(steps) + [Predicted(dt)];
  }

  /** The result of one call and the events it produced. */
  datatype Outcome = Outcome(filter: Filter, events: seq<Event>)

  /** The first usable measurement sets the state: a radar reading
      `(rho, phi)` becomes position `(cos(phi) rho, sin(phi) rho)`, a laser
      reading `(px, py)` that position, with zero speed, yaw and yaw rate, the
      identity covariance, and the measurement's time. Any other sensor is
      ignored. */
  function Bootstrap(f: Filter, m: MeasurementPackage, lib: Lib): (g: Filter)
    requires WellShaped(f) && Readable(m, false)
    ensures WellShaped(g)
  {
    match m.sensor
    case Radar =>
      var rho, phi := m.raw[0], m.raw[1];
      f.(x := [lib.Cos(phi) * rho, lib.Sin(phi) * rho, 0.0, 0.0, 0.0], P := Identity(NX),
         initialized := true, timeUs := m.timestamp)
    case Laser =>
      f.(x := [m.raw[0], m.raw[1], 0.0, 0.0, 0.0], P := Identity(NX),
         initialized := true, timeUs := m.timestamp)
    case Other => f
  }

  /** The state after the prediction steps of an initialised call: the stored
      time is replaced by the measurement's, then every step is predicted. */
  function PredictedState(f: Filter, m: MeasurementPackage, cfg: Config, lib: Lib): (g: Filter)
    requires WellShaped(f) && lib.Valid() && ConfigOk(cfg)
    ensures WellShaped(g)
  {
    PredictMany(f.(timeUs := m.timestamp), Schedule(Elapsed(m.timestamp, f.timeUs)), cfg, lib)
  }

  /** The radar update is defined: after prediction no sigma point is at
      range zero. */
  ghost predicate ProcessDefined(f: Filter, m: MeasurementPackage, cfg: Config, lib: Lib)
    requires WellShaped(f) && lib.Valid() && ConfigOk(cfg)
  {
    f.initialized && m.sensor == Radar ==> RangesNonzero(PredictedState(f, m, cfg, lib).xsigPred, lib)
  }

  /** One call: bootstrap while uninitialised; otherwise predict over the
      elapsed time and update with the radar model for a radar reading and
      with the lidar model for anything else. */
  function Process(f: Filter, m: MeasurementPackage, cfg: Config, lib: Lib): (o: Outcome)
    requires WellShaped(f) && lib.Valid() && ConfigOk(cfg)
    requires Readable(m, f.initialized) && ProcessDefined(f, m, cfg, lib)
    ensures WellShaped(o.filter)
  {
    if !f.initialized then Outcome(Bootstrap(f, m, lib), [])
    else
      var steps := Schedule(Elapsed(m.timestamp, f.timeUs));
      var g := PredictedState(f, m, cfg, lib);
      if m.sensor == Radar then
        Outcome(RadarUpdate(g, m.raw[..NZRadar], cfg, lib), PredictionEvents(steps) + [RadarUpdated])
      else
        Outcome(LidarUpdate(g, m.raw[..NZLidar], cfg, lib), PredictionEvents(steps) + [LidarUpdated])
  }

  // ---------------------------------------------------------------------
  // Properties

  /** Before initialisation a call only bootstraps and issues no prediction
      or update. */
  lemma ProcessUninitialized(f: Filter, m: MeasurementPackage, cfg: Config, lib: Lib)
    requires WellShaped(f) && lib.Valid() && ConfigOk(cfg) && !f.initialized
    requires Readable(m, false)
    ensures Process(f, m, cfg, lib) == Outcome(Bootstrap(f, m, lib), [])
  {
  }

  /** The radar bootstrap state, entry by entry. */
  lemma BootstrapRadarState(f: Filter, m: MeasurementPackage, lib: Lib)
    requires WellShaped(f) && m.sensor == Radar && |m.raw| >= 2
    ensures Bootstrap(f, m, lib)
         == f.(x := [lib.Cos(m.raw[1]) * m.raw[0], lib.Sin(m.raw[1]) * m.raw[0], 0.0, 0.0, 0.0],
               P := Identity(NX), initialized := true, timeUs := m.timestamp)
  {
    var x := Bootstrap(f, m, lib).x;
    assert x[0] == lib.Cos(m.raw[1]) * m.raw[0];
    assert x[1] == lib.Sin(m.raw[1]) * m.raw[0];
  }

  /** Bootstrap from a laser reading: its position, zero speed, yaw and yaw
      rate, the identity covariance and the measurement's time, and no
      events. */
  lemma BootstrapLaser(f: Filter, m: MeasurementPackage, cfg: Config, lib: Lib)
    requires WellShaped(f) && lib.Valid() && ConfigOk(cfg) && !f.initialized
    requires m.sensor == Laser && |m.raw| >= 2
    ensures var o := Process(f, m, cfg, lib);
      && o.filter == f.(x := [m.raw[0], m.raw[1], 0.0, 0.0, 0.0], P := Identity(NX),
                        initialized := true, timeUs := m.timestamp)
      && o.events == []
  {
    ProcessUninitialized(f, m, cfg, lib);
  }

  /** Bootstrap from a radar reading: the polar position converted. */
  lemma BootstrapRadar(f: Filter, m: MeasurementPackage, cfg: Config, lib: Lib)
    requires WellShaped(f) && lib.Valid() && ConfigOk(cfg) && !f.initialized
    requires m.sensor == Radar && |m.raw| >= 2
    ensures var o := Process(f, m, cfg, lib);
      && o.filter == f.(x := [lib.Cos(m.raw[1]) * m.raw[0], lib.Sin(m.raw[1]) * m.raw[0], 0.0, 0.0, 0.0],
                        P := Identity(NX), initialized := true, timeUs := m.timestamp)
      && o.events == []
  {
    ProcessUninitialized(f, m, cfg, lib);
    BootstrapRadarState(f, m, lib);
  }

  /** Any other sensor before initialisation changes nothing. */
  lemma BootstrapOther(f: Filter, m: MeasurementPackage, cfg: Config, lib: Lib)
    requires WellShaped(f) && lib.Valid() && ConfigOk(cfg) && !f.initialized
    requires m.sensor == Other
    ensures Process(f, m, cfg, lib) == Outcome(f, [])
  {
    ProcessUninitialized(f, m, cfg, lib);
  }

  /** The first laser reading `(5, 3)` gives mean `[5, 3, 0, 0, 0]` and the
      identity covariance; the first radar reading `(5, 0, 0)` gives mean
      `[5, 0, 0, 0, 0]` when `cos 0 = 1` and `sin 0 = 0`. Neither sets a NIS. */
  lemma BootstrapExamples(f: Filter, cfg: Config, lib: Lib, t: int)
    requires WellShaped(f) && lib.Valid() && ConfigOk(cfg) && !f.initialized
    requires lib.Cos(0.0) == 1.0 && lib.Sin(0.0) == 0.0
    ensures var g := Process(f, MeasurementPackage(Laser, [5.0, 3.0], t), cfg, lib).filter;
      g.x == [5.0, 3.0, 0.0, 0.0, 0.0] && g.P == Identity(NX) && g.initialized
      && g.nisLaser == f.nisLaser && g.nisRadar == f.nisRadar
    ensures var g := Process(f, MeasurementPackage(Radar, [5.0, 0.0, 0.0], t), cfg, lib).filter;
      g.x == [5.0, 0.0, 0.0, 0.0, 0.0] && g.P == Identity(NX) && g.initialized
      && g.nisLaser == f.nisLaser && g.nisRadar == f.nisRadar
  {
    var laser, radar := MeasurementPackage(Laser, [5.0, 3.0], t), MeasurementPackage(Radar, [5.0, 0.0, 0.0], t);
    BootstrapLaser(f, laser, cfg, lib);
    BootstrapRadar(f, radar, cfg, lib);
    assert radar.raw[0] == 5.0 && radar.raw[1] == 0.0;
  }

  /** Once initialised, a call predicts over the schedule for the elapsed
      time and then applies exactly one update: the radar update for a radar
      reading, the lidar update otherwise. The stored time becomes the
      measurement's and the filter stays initialised. */
  lemma ProcessInitialized(f: Filter, m: MeasurementPackage, cfg: Config, lib: Lib)
    requires WellShaped(f) && lib.Valid() && ConfigOk(cfg) && f.initialized
    requires Readable(m, true) && ProcessDefined(f, m, cfg, lib)
    ensures var o := Process(f, m, cfg, lib);
      && o.filter.timeUs == m.timestamp && o.filter.initialized
      && o.events == PredictionEvents(Schedule(Elapsed(m.timestamp, f.timeUs)))
                     + [if m.sensor == Radar then RadarUpdated else LidarUpdated]
      && (m.sensor == Radar ==> o.filter == RadarUpdate(PredictedState(f, m, cfg, lib), m.raw[..NZRadar], cfg, lib))
      && (m.sensor != Radar ==> o.filter == LidarUpdate(PredictedState(f, m, cfg, lib), m.raw[..NZLidar], cfg, lib))
  {
  }

  /** Initialisation is one-way: after any call on an initialised filter it
      is still initialised; before, exactly the laser and radar readings
      initialise it. */
  lemma InitializedIsTerminal(f: Filter, m: MeasurementPackage, cfg: Config, lib: Lib)
    requires WellShaped(f) && lib.Valid() && ConfigOk(cfg)
    requires Readable(m, f.initialized) && ProcessDefined(f, m, cfg, lib)
    ensures f.initialized ==> Process(f, m, cfg, lib).filter.initialized
    ensures !f.initialized ==> (Process(f, m, cfg, lib).filter.initialized <==> m.sensor != Other)
  {
  }

  /** After at least one prediction step the covariance is symmetric,
      whatever it was before. */
  lemma PredictManySymmetric(f: Filter, steps: seq<real>, cfg: Config, lib: Lib)
    requires WellShaped(f) && lib.Valid() && ConfigOk(cfg) && |steps| > 0
    ensures Symmetric(PredictMany(f, steps, cfg, lib).P)
  {
    var k := |steps| - 1;
    PredictCovSymmetric(PredictMany(f, steps[..k], cfg, lib), steps[k], cfg, lib);
  }

  /** Every call leaves a symmetric covariance: an initialised call because
      it predicts at least once and both updates keep symmetry, an
      uninitialised one because bootstrap sets the identity or changes
      nothing. */
  lemma ProcessSymmetric(f: Filter, m: MeasurementPackage, cfg: Config, lib: Lib)
    requires WellShaped(f) && lib.Valid() && ConfigOk(cfg)
    requires Readable(m, f.initialized) && ProcessDefined(f, m, cfg, lib)
    ensures f.initialized ==> Symmetric(Process(f, m, cfg, lib).filter.P)
    ensures Symmetric(f.P) ==> Symmetric(Process(f, m, cfg, lib).filter.P)
  {
    if f.initialized {
      var g := PredictedState(f, m, cfg, lib);
      PredictManySymmetric(f.(timeUs := m.timestamp), Schedule(Elapsed(m.timestamp, f.timeUs)), cfg, lib);
      if m.sensor == Radar {
        RadarUpdateSymmetric(g, m.raw[..NZRadar], cfg, lib);
      } else {
        LidarUpdateSymmetric(g, m.raw[..NZLidar], cfg, lib);
      }
    }
  }
}
