/**
 * The heading post-processor of utils/Compass.kt.
 *
 * A `Compass` receives sensor events one at a time. A rotation-vector event
 * latches the estimator onto that sensor for good; before the latch,
 * magnetometer and accelerometer events feed two smoothed vectors. The raw
 * azimuth, pitch and roll (the platform's `getOrientation` in degrees, kept
 * abstract here) are remapped for the screen rotation, including the
 * "device upside down" reflection, the azimuth is brought into [0, 360), and
 * the listener is told only when a change passes one of three sensibility
 * thresholds.
 *
 * The pure part (`Step` and the functions it is built from) is the
 * specification; the class `Compass` is the imperative object, and each of its
 * methods is proved to move its fields exactly as `Step` says.
 */
module CompassSensor {
  import opened Wrappers
  import opened KotlinRuntime

  /** `event.sensor.type`: the three kinds the compass listens to, and anything else. */
  datatype SensorKind = RotationVector | MagneticField | Accelerometer | OtherSensor

  datatype SensorEvent = SensorEvent(kind: SensorKind, values: seq<real>)

  /** Azimuth, pitch and roll in degrees (also the shape of the three sensibility thresholds). */
  datatype Angles = Angles(azimuth: real, pitch: real, roll: real)

  /** Which of `getDefaultSensor(TYPE_ROTATION_VECTOR / TYPE_MAGNETIC_FIELD / TYPE_ACCELEROMETER)` found a sensor. */
  datatype Sensors = Sensors(rotationVector: bool, magnetometer: bool, accelerometer: bool)

  /**
   * The platform numerics, left abstract: `getRotationMatrixFromVector` then
   * `getOrientation` and `Math.toDegrees` for a rotation vector, and
   * `getRotationMatrix(gravity, geomagnetic)` then the same two for the fused
   * pair. Each yields the raw (azimuth, pitch, roll) in degrees.
   */
  datatype Orientations = Orientations(
    fromRotationVector: seq<real> -> Angles,
    fromGravityAndField: (seq<real>, seq<real>) -> Angles)

  /** `Surface.ROTATION_*`, the values of `Display.getRotation()`. */
  const ROTATION_0: int := 0
  const ROTATION_90: int := 1
  const ROTATION_180: int := 2
  const ROTATION_270: int := 3

  const ROTATION_VECTOR_SMOOTHING_FACTOR: real := 0.5
  const GEOMAGNETIC_SMOOTHING_FACTOR: real := 0.4
  const GRAVITY_SMOOTHING_FACTOR: real := 0.1

  const Zero: Angles := Angles(0.0, 0.0, 0.0)

  /** The sensor kinds `start` registers a listener for: every sensor the device has. */
  function PresentKinds(s: Sensors): (r: set<SensorKind>)
    ensures RotationVector in r <==> s.rotationVector
    ensures MagneticField in r <==> s.magnetometer
    ensures Accelerometer in r <==> s.accelerometer
    ensures OtherSensor !in r
  {
    (if s.rotationVector then {RotationVector} else {})
    + (if s.magnetometer then {MagneticField} else {})
    + (if s.accelerometer then {Accelerometer} else {})
  }

  // ---------------------------------------------------------------------------
  // Exponential smoothing

  /**
   * What `exponentialSmoothing(newValue, lastValue, alpha)` returns: `newValue`
   * itself when there is no previous vector, otherwise
   * `last[i] + alpha·(new[i] − last[i])` for every index of `newValue`. The
   * loop indexes `lastValue` with the indices of `newValue`, so it must be at
   * least as long.
   */
  function Smoothed(newValue: seq<real>, lastValue: Option<seq<real>>, alpha: real): seq<real>
    requires lastValue.Some? ==> |newValue| <= |lastValue.value|
  {
    match lastValue
    case None => newValue
    case Some(last) =>
      seq(|newValue|, i requires 0 <= i < |newValue| => last[i] + alpha * (newValue[i] - last[i]))
  }

  /** alpha = 1 switches smoothing off: the output is the new sample. */
  lemma SmoothedWithoutSmoothing(newValue: seq<real>, last: seq<real>)
    requires |newValue| <= |last|
    ensures Smoothed(newValue, Some(last), 1.0) == newValue
  {
  }

  /** alpha = 0 freezes the vector: the output is the previous one. */
  lemma SmoothedFrozen(newValue: seq<real>, last: seq<real>)
    requires |newValue| <= |last|
    ensures Smoothed(newValue, Some(last), 0.0) == last[..|newValue|]
  {
  }

  /** A sample equal to the smoothed vector leaves it unchanged, whatever alpha is. */
  lemma SmoothedSteady(value: seq<real>, alpha: real)
    ensures Smoothed(value, Some(value), alpha) == value
  {
  }

  /** A fraction between 0 and 1 of a difference lies between 0 and that difference. */
  lemma FractionBetween(alpha: real, d: real)
    requires 0.0 <= alpha <= 1.0
    ensures d >= 0.0 ==> 0.0 <= alpha * d <= d
    ensures d <= 0.0 ==> d <= alpha * d <= 0.0
  {
    if d > 0.0 {
      ScaleMonotone(0.0, alpha, d);
      ScaleMonotone(alpha, 1.0, d);
    } else if d < 0.0 {
      ScaleMonotone(0.0, alpha, -d);
      ScaleMonotone(alpha, 1.0, -d);
      assert alpha * (-d) == -(alpha * d);
    }
  }

  /** One smoothing step on one component, with its two properties. */
  lemma BlendProperties(l: real, n: real, alpha: real)
    ensures (l + alpha * (n - l)) - n == (1.0 - alpha) * (l - n)
    ensures 0.0 <= alpha <= 1.0 && l <= n ==> l <= l + alpha * (n - l) <= n
    ensures 0.0 <= alpha <= 1.0 && n <= l ==> n <= l + alpha * (n - l) <= l
  {
    assert alpha * (n - l) == -(alpha * (l - n));
    assert (1.0 - alpha) * (l - n) == (l - n) - alpha * (l - n);
    if 0.0 <= alpha <= 1.0 {
      var d := n - l;
      var p := alpha * d;
      FractionBetween(alpha, d);
      assert l + alpha * (n - l) == l + p;
      assert d >= 0.0 ==> 0.0 <= p <= d;
      assert d <= 0.0 ==> d <= p <= 0.0;
    }
  }

  /**
   * Each step closes the gap to the new sample by the factor 1 − alpha, and for
   * 0 ≤ alpha ≤ 1 the output lies between the previous and the new value.
   */
  lemma SmoothedContracts(newValue: seq<real>, last: seq<real>, alpha: real, i: int)
    requires |newValue| <= |last| && 0 <= i < |newValue|
    ensures var r := Smoothed(newValue, Some(last), alpha)[i];
      && r - newValue[i] == (1.0 - alpha) * (last[i] - newValue[i])
      && (0.0 <= alpha <= 1.0 && last[i] <= newValue[i] ==> last[i] <= r <= newValue[i])
      && (0.0 <= alpha <= 1.0 && newValue[i] <= last[i] ==> newValue[i] <= r <= last[i])
  {
    var l, n := last[i], newValue[i];
    var r := Smoothed(newValue, Some(last), alpha)[i];
    assert r == l + alpha * (n - l);
    BlendProperties(l, n, alpha);
    assert 0.0 <= alpha <= 1.0 && n <= l ==> n <= r <= l;
  }

  // ---------------------------------------------------------------------------
  // Screen-rotation correction and normalisation

  /** The reflection of pitch and roll when the device is upside down: 0 goes to −180. */
  function Reflect(v: real): (r: real)
  {
    if v > 0.0 then 180.0 - v else -180.0 - v
  }

  lemma ReflectZero()
    ensures Reflect(0.0) == -180.0
  {
  }

  /** Away from 0 and ±180 the reflection undoes itself. */
  lemma ReflectInvolution(v: real)
    requires -180.0 < v < 180.0 && v != 0.0
    ensures Reflect(Reflect(v)) == v
  {
  }

  /**
   * The 0° and 180° screen rotations' second step: a roll of ±90° or more means
   * the device is upside down, so the azimuth turns by 180° and pitch and roll
   * are reflected.
   */
  function FlipIfUpsideDown(a: Angles): Angles
  {
    if a.roll >= 90.0 || a.roll <= -90.0 then
      Angles(a.azimuth + 180.0, Reflect(a.pitch), Reflect(a.roll))
    else a
  }

  /** Whenever the roll starts in [−180, 180], the flip leaves it in [−90, 90]. */
  lemma FlipBringsRollIntoRange(a: Angles)
    requires -180.0 <= a.roll <= 180.0
    ensures -90.0 <= FlipIfUpsideDown(a).roll <= 90.0
    ensures (a.roll >= 90.0 || a.roll <= -90.0) ==> FlipIfUpsideDown(a).azimuth == a.azimuth + 180.0
    ensures (-90.0 < a.roll < 90.0) ==> FlipIfUpsideDown(a) == a
  {
  }

  /**
   * Lines 177-203: the raw angles remapped for `screenRotation`. An unknown
   * rotation value leaves pitch and roll at their previous values.
   */
  function CorrectForScreen(raw: Angles, screenRotation: int, previous: Angles): (r: Angles)
  {
    if screenRotation == ROTATION_0 then
      FlipIfUpsideDown(raw)
    else if screenRotation == ROTATION_90 then
      Angles(raw.azimuth + 90.0, raw.roll, -raw.pitch)
    else if screenRotation == ROTATION_180 then
      FlipIfUpsideDown(Angles(raw.azimuth + 180.0, -raw.pitch, -raw.roll))
    else if screenRotation == ROTATION_270 then
      Angles(raw.azimuth + 270.0, -raw.roll, raw.pitch)
    else
      Angles(raw.azimuth, previous.pitch, previous.roll)
  }

  /** The azimuth correction never adds more than 450° (270°, or 180° twice on the 180° rotation). */
  lemma CorrectionShift(raw: Angles, screenRotation: int, previous: Angles)
    ensures raw.azimuth <= CorrectForScreen(raw, screenRotation, previous).azimuth <= raw.azimuth + 450.0
  {
  }

  /** Line 206: `(azimuth + 360) % 360` with Kotlin's `Float` remainder. */
  function NormalizeAzimuth(azimuth: real): real
  {
    FloatRem(azimuth + 360.0, 360.0)
  }

  /**
   * For every azimuth from −360° up, the normalised value lies in [0, 360) and
   * differs from the input by a whole number of turns.
   */
  lemma NormalizeAzimuthInRange(azimuth: real)
    requires azimuth >= -360.0
    ensures 0.0 <= NormalizeAzimuth(azimuth) < 360.0
    ensures ((azimuth - NormalizeAzimuth(azimuth)) / 360.0).Floor as real
            == (azimuth - NormalizeAzimuth(azimuth)) / 360.0
  {
    var x := azimuth + 360.0;
    var r := FloatRem(x, 360.0);
    FloatRemCongruent(x, 360.0);
    var q := (x - r) / 360.0;
    var k := q.Floor;
    assert q == k as real;
    assert azimuth - r == (x - r) - 360.0;
    assert (azimuth - r) / 360.0 == q - 1.0;
    assert (q - 1.0).Floor == k - 1;
  }

  /** Below −360° the truncating remainder stays negative: the guarantee needs the lower bound. */
  lemma NormalizeAzimuthBelowRange(azimuth: real)
    requires azimuth < -360.0
    ensures -360.0 < NormalizeAzimuth(azimuth) <= 0.0
  {
  }

  // ---------------------------------------------------------------------------
  // Gating

  /**
   * Lines 209-212: the listener is told when any axis moved by at least its
   * sensibility, or when the last azimuth sent is exactly 0.
   */
  predicate ShouldNotify(current: Angles, last: Angles, sensibility: Angles)
  {
    || Abs(current.azimuth - last.azimuth) >= sensibility.azimuth
    || Abs(current.pitch - last.pitch) >= sensibility.pitch
    || Abs(current.roll - last.roll) >= sensibility.roll
    || last.azimuth == 0.0
  }

  /** With all three sensibilities 0 every sample passes. */
  lemma ZeroSensibilityAlwaysNotifies(current: Angles, last: Angles)
    ensures ShouldNotify(current, last, Zero)
  {
  }

  /**
   * An azimuth sensibility of 360° switches the azimuth clause off: both
   * azimuths lie in [0, 360), so they are never a full turn apart.
   */
  lemma FullTurnSensibilityIgnoresAzimuth(current: Angles, last: Angles, sensibility: Angles)
    requires 0.0 <= current.azimuth < 360.0 && 0.0 <= last.azimuth < 360.0
    requires sensibility.azimuth == 360.0
    ensures ShouldNotify(current, last, sensibility) <==>
      || Abs(current.pitch - last.pitch) >= sensibility.pitch
      || Abs(current.roll - last.roll) >= sensibility.roll
      || last.azimuth == 0.0
  {
  }

  // ---------------------------------------------------------------------------
  // The state machine

  /** The fields of a `Compass` that `onSensorChanged`, `start` and `stop` read or write. */
  datatype State = State(
    useRotationVector: bool,   // mUseRotationVectorSensor
    current: Angles,           // mAzimuthDegrees, mPitchDegrees, mRollDegrees
    rotationVector: seq<real>, // mRotationVector
    geomagnetic: seq<real>,    // mGeomagnetic
    gravity: seq<real>,        // mGravity
    sensibility: Angles,       // mAzimuthSensibility, mPitchSensibility, mRollSensibility
    last: Angles)              // mLastAzimuthDegrees, mLastPitchDegrees, mLastRollDegrees

  /** A new `Compass`: no latch, all angles 0, zero vectors of sizes 5, 3 and 3. */
  const Initial: State := State(
    false, Zero, [0.0, 0.0, 0.0, 0.0, 0.0], [0.0, 0.0, 0.0], [0.0, 0.0, 0.0], Zero, Zero)

  /** `exponentialSmoothing` indexes the smoothed vector with the event's indices. */
  predicate Accepts(s: State, e: SensorEvent)
  {
    match e.kind
    case RotationVector => |e.values| <= |s.rotationVector|
    case MagneticField => s.useRotationVector || |e.values| <= |s.geomagnetic|
    case Accelerometer => s.useRotationVector || |e.values| <= |s.gravity|
    case OtherSensor => true
  }

  /** The event reaches the correction step (it does not return at line 170). */
  predicate Processed(s: State, e: SensorEvent)
  {
    e.kind == RotationVector
    || (!s.useRotationVector && (e.kind == MagneticField || e.kind == Accelerometer))
  }

  /** Lines 175-218: correct, normalise, and notify if the gate opens. */
  function Publish(s: State, raw: Angles, screenRotation: int): (State, Option<Angles>)
  {
    var c := CorrectForScreen(raw, screenRotation, s.current);
    var current := Angles(NormalizeAzimuth(c.azimuth), c.pitch, c.roll);
    if ShouldNotify(current, s.last, s.sensibility) then
      (s.(current := current, last := current), Some(current))
    else
      (s.(current := current), None)
  }

  /** One call of `onSensorChanged`: the new state and what the listener receives, if anything. */
  function Step(s: State, e: SensorEvent, screenRotation: int, o: Orientations): (State, Option<Angles>)
    requires Accepts(s, e)
  {
    if e.kind == RotationVector then
      var s1 := s.(useRotationVector := true,
                   rotationVector := Smoothed(e.values, Some(s.rotationVector), ROTATION_VECTOR_SMOOTHING_FACTOR));
      Publish(s1, o.fromRotationVector(e.values), screenRotation)
    else if !s.useRotationVector && (e.kind == MagneticField || e.kind == Accelerometer) then
      var s1 := if e.kind == MagneticField
        then s.(geomagnetic := Smoothed(e.values, Some(s.geomagnetic), GEOMAGNETIC_SMOOTHING_FACTOR))
        else s;
      var s2 := if e.kind == Accelerometer
        then s1.(gravity := Smoothed(e.values, Some(s1.gravity), GRAVITY_SMOOTHING_FACTOR))
        else s1;
      Publish(s2, o.fromGravityAndField(s2.gravity, s2.geomagnetic), screenRotation)
    else
      (s, None)
  }

  /** A sensor event delivered together with the screen rotation at that moment. */
  datatype Input = Input(event: SensorEvent, screenRotation: int)

  /** Every event of the sequence fits the smoothed vectors at the moment it arrives. */
  predicate Feasible(s: State, inputs: seq<Input>, o: Orientations)
    decreases |inputs|
  {
    inputs == []
    || (Accepts(s, inputs[0].event)
        && Feasible(Step(s, inputs[0].event, inputs[0].screenRotation, o).0, inputs[1..], o))
  }

  /** A sequence of events: the final state and the values the listener received, in order. */
  function Run(s: State, inputs: seq<Input>, o: Orientations): (State, seq<Angles>)
    requires Feasible(s, inputs, o)
    decreases |inputs|
  {
    if inputs == [] then (s, [])
    else
      var (s1, n) := Step(s, inputs[0].event, inputs[0].screenRotation, o);
      var (s2, ns) := Run(s1, inputs[1..], o);
      (s2, (if n.Some? then [n.value] else []) + ns)
  }

  // ---------------------------------------------------------------------------
  // Properties of one step

  /** The latch: a rotation-vector event sets it, and no event clears it. */
  lemma LatchIsOneWay(s: State, e: SensorEvent, screenRotation: int, o: Orientations)
    requires Accepts(s, e)
    ensures Step(s, e, screenRotation, o).0.useRotationVector
            <==> s.useRotationVector || e.kind == RotationVector
  {
  }

  /** After the latch, magnetometer and accelerometer events change nothing and notify nobody. */
  lemma FusionEventIgnoredAfterLatch(s: State, e: SensorEvent, screenRotation: int, o: Orientations)
    requires s.useRotationVector && (e.kind == MagneticField || e.kind == Accelerometer)
    ensures Accepts(s, e)
    ensures Step(s, e, screenRotation, o) == (s, None)
  {
  }

  /**
   * Before the latch, a magnetometer event smooths `geomagnetic` only and an
   * accelerometer event smooths `gravity` only; the latch, the rotation vector
   * and the sensibilities stay as they were.
   */
  lemma FusionEventUpdatesOwnVector(s: State, e: SensorEvent, screenRotation: int, o: Orientations)
    requires !s.useRotationVector && (e.kind == MagneticField || e.kind == Accelerometer)
    requires Accepts(s, e)
    ensures var r := Step(s, e, screenRotation, o).0;
      && !r.useRotationVector
      && r.rotationVector == s.rotationVector
      && r.sensibility == s.sensibility
      && r.geomagnetic == (if e.kind == MagneticField
                           then Smoothed(e.values, Some(s.geomagnetic), GEOMAGNETIC_SMOOTHING_FACTOR)
                           else s.geomagnetic)
      && r.gravity == (if e.kind == Accelerometer
                       then Smoothed(e.values, Some(s.gravity), GRAVITY_SMOOTHING_FACTOR)
                       else s.gravity)
  {
  }

  /**
   * On the rotation-vector path the orientation comes from the event's own
   * values: the smoothed rotation vector has no influence on the angles or on
   * the notification.
   */
  lemma SmoothedRotationVectorUnused(s: State, v: seq<real>, e: SensorEvent, screenRotation: int, o: Orientations)
    requires e.kind == RotationVector && |e.values| <= |s.rotationVector| && |e.values| <= |v|
    ensures var a := Step(s, e, screenRotation, o);
            var b := Step(s.(rotationVector := v), e, screenRotation, o);
            a.1 == b.1 && a.0.current == b.0.current && a.0.last == b.0.last
  {
  }

  /**
   * Gating: a processed event notifies exactly when `ShouldNotify` holds of the
   * new angles against the last ones sent; a notification carries the new
   * angles and records them as the last sent, otherwise the last sent stay.
   */
  lemma NotifiesExactlyWhenGateOpens(s: State, e: SensorEvent, screenRotation: int, o: Orientations)
    requires Accepts(s, e)
    ensures var (r, n) := Step(s, e, screenRotation, o);
      && (!Processed(s, e) ==> r == s && n.None?)
      && (Processed(s, e) ==>
            && (n.Some? <==> ShouldNotify(r.current, s.last, s.sensibility))
            && (n.Some? ==> n.value == r.current && r.last == r.current)
            && (n.None? ==> r.last == s.last)
            && r.sensibility == s.sensibility)
  {
  }

  /**
   * A last azimuth of exactly 0 opens the gate whatever the thresholds: the
   * first processed sample after construction is always delivered, and so is
   * the sample after any delivered heading of exactly 0°.
   */
  lemma ZeroHeadingOpensGate(s: State, e: SensorEvent, screenRotation: int, o: Orientations)
    requires Accepts(s, e) && Processed(s, e) && s.last.azimuth == 0.0
    ensures Step(s, e, screenRotation, o).1.Some?
  {
  }

  // ---------------------------------------------------------------------------
  // Ranges

  /** The ranges `getOrientation` produces: azimuth and roll in [−180, 180], pitch in [−90, 90]. */
  predicate RawInRange(a: Angles)
  {
    -180.0 <= a.azimuth <= 180.0 && -90.0 <= a.pitch <= 90.0 && -180.0 <= a.roll <= 180.0
  }

  ghost predicate OrientationsInRange(o: Orientations)
  {
    && (forall v :: RawInRange(o.fromRotationVector(v)))
    && (forall g, m :: RawInRange(o.fromGravityAndField(g, m)))
  }

  /** The documented output ranges: azimuth in [0, 360), pitch in [−180, 180], roll in [−90, 90]. */
  predicate EstimateInRange(a: Angles)
  {
    0.0 <= a.azimuth < 360.0 && -180.0 <= a.pitch <= 180.0 && -90.0 <= a.roll <= 90.0
  }

  predicate StateInRange(s: State)
  {
    EstimateInRange(s.current) && EstimateInRange(s.last)
  }

  /** Correction and normalisation map raw angles in range to an estimate in range. */
  lemma PublishKeepsRange(s: State, raw: Angles, screenRotation: int)
    requires StateInRange(s) && RawInRange(raw)
    ensures StateInRange(Publish(s, raw, screenRotation).0)
  {
    var c := CorrectForScreen(raw, screenRotation, s.current);
    CorrectionShift(raw, screenRotation, s.current);
    NormalizeAzimuthInRange(c.azimuth);
    if screenRotation == ROTATION_0 {
      FlipBringsRollIntoRange(raw);
    } else if screenRotation == ROTATION_180 {
      FlipBringsRollIntoRange(Angles(raw.azimuth + 180.0, -raw.pitch, -raw.roll));
    }
  }

  lemma StepKeepsRange(s: State, e: SensorEvent, screenRotation: int, o: Orientations)
    requires StateInRange(s) && OrientationsInRange(o) && Accepts(s, e)
    ensures StateInRange(Step(s, e, screenRotation, o).0)
  {
    if e.kind == RotationVector {
      var s1 := s.(useRotationVector := true,
                   rotationVector := Smoothed(e.values, Some(s.rotationVector), ROTATION_VECTOR_SMOOTHING_FACTOR));
      PublishKeepsRange(s1, o.fromRotationVector(e.values), screenRotation);
    } else if !s.useRotationVector && (e.kind == MagneticField || e.kind == Accelerometer) {
      var s1 := if e.kind == MagneticField
        then s.(geomagnetic := Smoothed(e.values, Some(s.geomagnetic), GEOMAGNETIC_SMOOTHING_FACTOR))
        else s;
      var s2 := if e.kind == Accelerometer
        then s1.(gravity := Smoothed(e.values, Some(s1.gravity), GRAVITY_SMOOTHING_FACTOR))
        else s1;
      PublishKeepsRange(s2, o.fromGravityAndField(s2.gravity, s2.geomagnetic), screenRotation);
    }
  }

  // ---------------------------------------------------------------------------
  // Properties of event sequences

  /** Over any sequence of events, every value the listener receives is in range. */
  lemma {:induction false} RunKeepsRange(s: State, inputs: seq<Input>, o: Orientations)
    requires StateInRange(s) && OrientationsInRange(o) && Feasible(s, inputs, o)
    ensures StateInRange(Run(s, inputs, o).0)
    ensures forall i :: 0 <= i < |Run(s, inputs, o).1| ==> EstimateInRange(Run(s, inputs, o).1[i])
    decreases |inputs|
  {
    if inputs != [] {
      var e, rot := inputs[0].event, inputs[0].screenRotation;
      StepKeepsRange(s, e, rot, o);
      NotifiesExactlyWhenGateOpens(s, e, rot, o);
      RunKeepsRange(Step(s, e, rot, o).0, inputs[1..], o);
    }
  }

  /** The latch is set at the end of a run exactly when it was set before or a rotation-vector event came. */
  lemma {:induction false} RunLatch(s: State, inputs: seq<Input>, o: Orientations)
    requires Feasible(s, inputs, o)
    ensures Run(s, inputs, o).0.useRotationVector
            <==> s.useRotationVector || exists i :: 0 <= i < |inputs| && inputs[i].event.kind == RotationVector
    decreases |inputs|
  {
    if inputs != [] {
      var e, rot := inputs[0].event, inputs[0].screenRotation;
      LatchIsOneWay(s, e, rot, o);
      RunLatch(Step(s, e, rot, o).0, inputs[1..], o);
      if exists i :: 0 <= i < |inputs| && inputs[i].event.kind == RotationVector {
        var i :| 0 <= i < |inputs| && inputs[i].event.kind == RotationVector;
        if i > 0 { assert inputs[1..][i - 1].event.kind == RotationVector; }
      }
      if exists i :: 0 <= i < |inputs[1..]| && inputs[1..][i].event.kind == RotationVector {
        var i :| 0 <= i < |inputs[1..]| && inputs[1..][i].event.kind == RotationVector;
        assert inputs[i + 1].event.kind == RotationVector;
      }
    }
  }

  /** Once latched, any run of magnetometer and accelerometer events leaves the state alone and stays silent. */
  lemma {:induction false} LateFusionEventsIgnored(s: State, inputs: seq<Input>, o: Orientations)
    requires s.useRotationVector
    requires forall i :: 0 <= i < |inputs| ==>
               inputs[i].event.kind == MagneticField || inputs[i].event.kind == Accelerometer
    ensures Feasible(s, inputs, o) && Run(s, inputs, o) == (s, [])
    decreases |inputs|
  {
    if inputs != [] {
      FusionEventIgnoredAfterLatch(s, inputs[0].event, inputs[0].screenRotation, o);
      assert forall i :: 0 <= i < |inputs[1..]| ==> inputs[1..][i] == inputs[i + 1];
      LateFusionEventsIgnored(s, inputs[1..], o);
      assert Step(s, inputs[0].event, inputs[0].screenRotation, o) == (s, None);
      assert Run(s, inputs[1..], o) == (s, []);
      assert Feasible(s, inputs, o);
      var (s1, n) := Step(s, inputs[0].event, inputs[0].screenRotation, o);
      assert s1 == s && n == None;
      assert Run(s, inputs, o) == (Run(s1, inputs[1..], o).0, [] + Run(s1, inputs[1..], o).1);
      assert Run(s, inputs, o).0 == s;
      assert Run(s, inputs, o).1 == [];
    }
  }

  // ---------------------------------------------------------------------------
  // Worked examples

  /** Portrait, roll 100°: upside down, so the azimuth turns by 180° and pitch and roll are reflected. */
  lemma UpsideDownExample(previous: Angles)
    ensures CorrectForScreen(Angles(10.0, 95.0, 100.0), ROTATION_0, previous) == Angles(190.0, 85.0, 80.0)
  {
  }

  /** Rotation 90°: azimuth 0° becomes 90°, pitch takes the roll and roll the negated pitch. */
  lemma QuarterTurnExample(pitch: real, roll: real, previous: Angles)
    ensures CorrectForScreen(Angles(0.0, pitch, roll), ROTATION_90, previous) == Angles(90.0, roll, -pitch)
    ensures NormalizeAzimuth(90.0) == 90.0
  {
  }

  /** A level rotation-vector sample whose first value is the azimuth. */
  function Level(azimuth: real): Input
  {
    Input(SensorEvent(RotationVector, [azimuth]), ROTATION_0)
  }

  /**
   * Azimuths 10, 12, 14, 20 with an azimuth sensibility of 5° (and a pitch and
   * roll sensibility above 0, so that the level pitch and roll do not open the
   * gate): only 10 and 20 are delivered.
   */
  lemma GatingExample(o: Orientations)
    requires forall v :: o.fromRotationVector(v) == Angles(if |v| > 0 then v[0] else 0.0, 0.0, 0.0)
    ensures var s := Initial.(sensibility := Angles(5.0, 1.0, 1.0));
      var inputs := [Level(10.0), Level(12.0), Level(14.0), Level(20.0)];
      Feasible(s, inputs, o) && Run(s, inputs, o).1 == [Angles(10.0, 0.0, 0.0), Angles(20.0, 0.0, 0.0)]
  {
    var s0 := Initial.(sensibility := Angles(5.0, 1.0, 1.0));
    var inputs := [Level(10.0), Level(12.0), Level(14.0), Level(20.0)];
    LevelStep(s0, 10.0, o);
    var (s1, n1) := Step(s0, inputs[0].event, ROTATION_0, o);
    LevelStep(s1, 12.0, o);
    var (s2, n2) := Step(s1, inputs[1].event, ROTATION_0, o);
    LevelStep(s2, 14.0, o);
    var (s3, n3) := Step(s2, inputs[2].event, ROTATION_0, o);
    LevelStep(s3, 20.0, o);
    var (s4, n4) := Step(s3, inputs[3].event, ROTATION_0, o);
    assert n1 == Some(Angles(10.0, 0.0, 0.0)) && n2 == None && n3 == None && n4 == Some(Angles(20.0, 0.0, 0.0));
    var rest := inputs[1..][1..][1..];
    assert rest == [Level(20.0)] && rest[1..] == [];
    assert Run(s3, rest, o).1 == [Angles(20.0, 0.0, 0.0)];
  }

  /** One level sample at rotation 0: the heading is the sample's azimuth, delivered exactly when the gate opens. */
  lemma LevelStep(s: State, azimuth: real, o: Orientations)
    requires forall v :: o.fromRotationVector(v) == Angles(if |v| > 0 then v[0] else 0.0, 0.0, 0.0)
    requires 0.0 <= azimuth < 360.0 && |s.rotationVector| >= 1
    ensures Accepts(s, Level(azimuth).event)
    ensures var (s1, n) := Step(s, Level(azimuth).event, ROTATION_0, o);
      var a := Angles(azimuth, 0.0, 0.0);
      && |s1.rotationVector| == 1 && s1.sensibility == s.sensibility
      && n == (if ShouldNotify(a, s.last, s.sensibility) then Some(a) else None)
      && s1.last == (if n.Some? then a else s.last)
  {
    var a := Angles(azimuth, 0.0, 0.0);
    NormalizeExample(azimuth);
    assert o.fromRotationVector([azimuth]) == a;
    assert CorrectForScreen(a, ROTATION_0, s.current) == a;
    var s1 := s.(useRotationVector := true,
                 rotationVector := Smoothed([azimuth], Some(s.rotationVector), ROTATION_VECTOR_SMOOTHING_FACTOR));
    assert Step(s, Level(azimuth).event, ROTATION_0, o) == Publish(s1, a, ROTATION_0);
  }

  lemma NormalizeExample(azimuth: real)
    requires 0.0 <= azimuth < 360.0
    ensures NormalizeAzimuth(azimuth) == azimuth
  {
    var x := azimuth + 360.0;
    assert 1.0 <= x / 360.0 < 2.0;
    assert Trunc(x / 360.0) == 1;
  }

  // ---------------------------------------------------------------------------
  // The object

  class Compass {
    const sensors: Sensors
    /** The sensor kinds this object is registered for with the sensor manager. */
    var registered: set<SensorKind>
    var useRotationVectorSensor: bool
    var azimuthDegrees: real
    var pitchDegrees: real
    var rollDegrees: real
    var rotationVector: seq<real>
    var geomagnetic: seq<real>
    var gravity: seq<real>
    var azimuthSensibility: real
    var pitchSensibility: real
    var rollSensibility: real
    var lastAzimuthDegrees: real
    var lastPitchDegrees: real
    var lastRollDegrees: real

    /** The fields as a `State`. */
    function Model(): State
      reads this
    {
      State(useRotationVectorSensor,
            Angles(azimuthDegrees, pitchDegrees, rollDegrees),
            rotationVector, geomagnetic, gravity,
            Angles(azimuthSensibility, pitchSensibility, rollSensibility),
            Angles(lastAzimuthDegrees, lastPitchDegrees, lastRollDegrees))
    }

    constructor (sensors: Sensors)
      ensures this.sensors == sensors && registered == {} && Model() == Initial
    {
      this.sensors := sensors;
      registered := {};
      useRotationVectorSensor := false;
      azimuthDegrees, pitchDegrees, rollDegrees := 0.0, 0.0, 0.0;
      rotationVector := [0.0, 0.0, 0.0, 0.0, 0.0];
      geomagnetic := [0.0, 0.0, 0.0];
      gravity := [0.0, 0.0, 0.0];
      azimuthSensibility, pitchSensibility, rollSensibility := 0.0, 0.0, 0.0;
      lastAzimuthDegrees, lastPitchDegrees, lastRollDegrees := 0.0, 0.0, 0.0;
    }

    /** A rotation-vector sensor, or both a magnetometer and an accelerometer. */
    function HasRequiredSensors(): (r: bool)
      ensures r <==> sensors.rotationVector || (sensors.magnetometer && sensors.accelerometer)
    {
      if sensors.rotationVector then true
      else if sensors.magnetometer && sensors.accelerometer then true
      else false
    }

    /** The factory: a fresh compass, or null when the device lacks the required sensors. */
    static method NewInstance(sensors: Sensors) returns (c: Compass?)
      ensures c == null <==> !(sensors.rotationVector || (sensors.magnetometer && sensors.accelerometer))
      ensures c != null ==> fresh(c) && c.sensors == sensors && c.registered == {} && c.Model() == Initial
    {
      var compass := new Compass(sensors);
      if compass.HasRequiredSensors() {
        c := compass;
      } else {
        c := null;
      }
    }

    /** Sets the three sensibilities and registers for every sensor present. */
    method Start(azimuthSensibility: real, pitchSensibility: real, rollSensibility: real)
      modifies this
      ensures Model() == old(Model()).(sensibility := Angles(azimuthSensibility, pitchSensibility, rollSensibility))
      ensures registered == old(registered) + PresentKinds(sensors)
    {
      this.azimuthSensibility := azimuthSensibility;
      this.pitchSensibility := pitchSensibility;
      this.rollSensibility := rollSensibility;
      if sensors.rotationVector {
        registered := registered + {RotationVector};
      }
      if sensors.magnetometer {
        registered := registered + {MagneticField};
      }
      if sensors.accelerometer {
        registered := registered + {Accelerometer};
      }
    }

    /** `start()`: the default sensibilities are all 0. */
    method StartWithDefaults()
      modifies this
      ensures Model() == old(Model()).(sensibility := Zero)
      ensures registered == old(registered) + PresentKinds(sensors)
    {
      Start(0.0, 0.0, 0.0);
    }

    /** Zeroes the sensibilities and unregisters; the latch and the last angles sent are kept. */
    method Stop()
      modifies this
      ensures Model() == old(Model()).(sensibility := Zero)
      ensures registered == {}
    {
      azimuthSensibility := 0.0;
      pitchSensibility := 0.0;
      rollSensibility := 0.0;
      registered := {};
    }

    /** `exponentialSmoothing`: fills a new array of the size of `newValue`. */
    static method ExponentialSmoothing(newValue: seq<real>, lastValue: Option<seq<real>>, alpha: real)
      returns (output: seq<real>)
      requires lastValue.Some? ==> |newValue| <= |lastValue.value|
      ensures output == Smoothed(newValue, lastValue, alpha)
    {
      var out := new real[|newValue|];
      if lastValue.None? {
        return newValue;
      }
      var last := lastValue.value;
      for i := 0 to |newValue|
        invariant forall k :: 0 <= k < i ==> out[k] == last[k] + alpha * (newValue[k] - last[k])
      {
        out[i] := last[i] + alpha * (newValue[i] - last[i]);
      }
      output := out[..];
      assert forall k :: 0 <= k < |output| ==> output[k] == Smoothed(newValue, lastValue, alpha)[k];
    }

    /** Lines 175-203: the raw angles remapped for the screen rotation, into the three angle fields. */
    method CorrectForRotation(orientation: Angles, screenRotation: int)
      modifies this
      ensures Model() == old(Model()).(current := CorrectForScreen(orientation, screenRotation, old(Model()).current))
      ensures registered == old(registered)
    {
      azimuthDegrees := orientation.azimuth;
      if screenRotation == ROTATION_0 {
        pitchDegrees := orientation.pitch;
        rollDegrees := orientation.roll;
        if rollDegrees >= 90.0 || rollDegrees <= -90.0 {
          azimuthDegrees := azimuthDegrees + 180.0;
          pitchDegrees := if pitchDegrees > 0.0 then 180.0 - pitchDegrees else -180.0 - pitchDegrees;
          rollDegrees := if rollDegrees > 0.0 then 180.0 - rollDegrees else -180.0 - rollDegrees;
        }
      } else if screenRotation == ROTATION_90 {
        azimuthDegrees := azimuthDegrees + 90.0;
        pitchDegrees := orientation.roll;
        rollDegrees := -orientation.pitch;
      } else if screenRotation == ROTATION_180 {
        azimuthDegrees := azimuthDegrees + 180.0;
        pitchDegrees := -orientation.pitch;
        rollDegrees := -orientation.roll;
        if rollDegrees >= 90.0 || rollDegrees <= -90.0 {
          azimuthDegrees := azimuthDegrees + 180.0;
          pitchDegrees := if pitchDegrees > 0.0 then 180.0 - pitchDegrees else -180.0 - pitchDegrees;
          rollDegrees := if rollDegrees > 0.0 then 180.0 - rollDegrees else -180.0 - rollDegrees;
        }
      } else if screenRotation == ROTATION_270 {
        azimuthDegrees := azimuthDegrees + 270.0;
        pitchDegrees := -orientation.roll;
        rollDegrees := orientation.pitch;
      }
    }

    /** Lines 175-218: correct and normalise the angles, then notify if the gate opens. */
    method PublishOrientation(orientation: Angles, screenRotation: int) returns (notified: Option<Angles>)
      modifies this
      ensures (Model(), notified) == Publish(old(Model()), orientation, screenRotation)
      ensures registered == old(registered)
    {
      CorrectForRotation(orientation, screenRotation);
      azimuthDegrees := FloatRem(azimuthDegrees + 360.0, 360.0);

      if || Abs(azimuthDegrees - lastAzimuthDegrees) >= azimuthSensibility
         || Abs(pitchDegrees - lastPitchDegrees) >= pitchSensibility
         || Abs(rollDegrees - lastRollDegrees) >= rollSensibility
         || lastAzimuthDegrees == 0.0
      {
        lastAzimuthDegrees := azimuthDegrees;
        lastPitchDegrees := pitchDegrees;
        lastRollDegrees := rollDegrees;
        notified := Some(Angles(azimuthDegrees, pitchDegrees, rollDegrees));
      } else {
        notified := None;
      }
    }

    /**
     * `onSensorChanged`: the screen rotation and the platform orientation
     * numerics are parameters; the result is what the listener is called with.
     */
    method OnSensorChanged(event: SensorEvent, screenRotation: int, platform: Orientations)
      returns (notified: Option<Angles>)
      requires Accepts(Model(), event)
      modifies this
      ensures (Model(), notified) == Step(old(Model()), event, screenRotation, platform)
      ensures registered == old(registered)
    {
      var orientation: Angles;
      if event.kind == RotationVector {
        if !useRotationVectorSensor {
          useRotationVectorSensor := true;
        }
        rotationVector := ExponentialSmoothing(event.values, Some(rotationVector), ROTATION_VECTOR_SMOOTHING_FACTOR);
        orientation := platform.fromRotationVector(event.values);
        assert Model() == old(Model()).(useRotationVector := true,
          rotationVector := Smoothed(event.values, Some(old(rotationVector)), ROTATION_VECTOR_SMOOTHING_FACTOR));
      } else if !useRotationVectorSensor && (event.kind == MagneticField || event.kind == Accelerometer) {
        if event.kind == MagneticField {
          geomagnetic := ExponentialSmoothing(event.values, Some(geomagnetic), GEOMAGNETIC_SMOOTHING_FACTOR);
        }
        if event.kind == Accelerometer {
          gravity := ExponentialSmoothing(event.values, Some(gravity), GRAVITY_SMOOTHING_FACTOR);
        }
        orientation := platform.fromGravityAndField(gravity, geomagnetic);
      } else {
        assert !Processed(Model(), event);
        return None;
      }

      notified := PublishOrientation(orientation, screenRotation);
    }
  }
}
