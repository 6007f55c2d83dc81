/** `LinearAccelerationViewModel`: the per-event state update of the shoulder
    measurement, its recording of angle points and its CSV export.

    The transitions are first stated as functions over a `ViewModelState` value,
    and the properties of a session are proved about them; the class below holds
    the same fields, updates them in place as the source does, and each of its
    methods is proved to perform the corresponding transition. */
module ViewModel {
  import opened Model
  import opened Filters
  import Csv

  /** The synthetic clock advances by this much per recorded point (`time += 0.05f`). */
  const TimeStep: real := 0.05

  /** The view model's mutable fields. `algorithm1Angle` and `algorithm2Angle` are the
      values last published on the two state flows. */
  datatype ViewModelState = ViewModelState(
    angleData: seq<AngleDataPoint>,
    algorithm1Angle: real,
    algorithm2Angle: real,
    time: real,
    gyroAngle: real,
    lastGyroTimestamp: int,
    previousFilteredAngle: real)

  /** Every field starts at zero and no point is recorded. */
  const Initial := ViewModelState([], 0.0, 0.0, 0.0, 0.0, 0, 0.0)

  // ---------------------------------------------------------------------------
  // The transitions

  /** `recordData`: advance the clock, then append a point stamped with it. */
  function RecordPoint(s: ViewModelState, algorithm1: real, algorithm2: real): (r: ViewModelState)
    ensures |r.angleData| == |s.angleData| + 1 && s.angleData <= r.angleData
    ensures r.angleData[|s.angleData|] == AngleDataPoint(r.time, algorithm1, algorithm2)
    ensures ClockConsistent(s) ==> ClockConsistent(r)
    ensures r.(angleData := s.angleData, time := s.time) == s
  {
    var t := s.time + TimeStep;
    var r := s.(time := t, angleData := s.angleData + [AngleDataPoint(t, algorithm1, algorithm2)]);
    assert r.angleData[|s.angleData|].timestamp == t;
    r
  }

  /** `startMeasurement`: empties the series and zeroes the clock, which are then
      consistent; the filter state and the published values carry over from the
      previous session. */
  function Restart(s: ViewModelState): (r: ViewModelState)
    ensures r.angleData == [] && r.time == 0.0 && ClockConsistent(r)
    ensures r.previousFilteredAngle == s.previousFilteredAngle
    ensures r.gyroAngle == s.gyroAngle && r.lastGyroTimestamp == s.lastGyroTimestamp
    ensures r.algorithm1Angle == s.algorithm1Angle && r.algorithm2Angle == s.algorithm2Angle
  {
    s.(angleData := [], time := 0.0)
  }

  /** `updateGyroAngle`: a zero `lastGyroTimestamp` means "no earlier sample", and
      such a sample only records its timestamp; otherwise the Y-axis angular velocity
      is integrated over the (mis-scaled, see Filters.GyroStep) time step. */
  function IntegrateGyro(s: ViewModelState, timestamp: int, angularVelocityY: real): (r: ViewModelState)
    ensures r.(gyroAngle := s.gyroAngle, lastGyroTimestamp := s.lastGyroTimestamp) == s
    ensures r.lastGyroTimestamp == timestamp
    ensures s.lastGyroTimestamp == 0 ==> r.gyroAngle == s.gyroAngle
    ensures s.lastGyroTimestamp != 0 ==>
      r.gyroAngle == s.gyroAngle + angularVelocityY * (1000000000000000000.0 * ElapsedSeconds(timestamp, s.lastGyroTimestamp))
  {
    var angle :=
      if s.lastGyroTimestamp != 0 then s.gyroAngle + angularVelocityY * GyroStep(timestamp, s.lastGyroTimestamp)
      else s.gyroAngle;
    s.(gyroAngle := angle, lastGyroTimestamp := timestamp)
  }

  /** The linear-acceleration branch of `onSensorChanged`: tilt, one EWMA step,
      fusion with the current gyroscope angle, publish both, record a point. */
  function ProcessLinearAcceleration(s: ViewModelState, x: real, y: real, z: real, calculateAngle: TiltFunction): (r: ViewModelState)
    ensures r.previousFilteredAngle == r.algorithm1Angle == EwmaFilter(calculateAngle(x, y, z), s.previousFilteredAngle)
    ensures r.algorithm2Angle == ComplementaryFilter(r.algorithm1Angle, s.gyroAngle)
    ensures r.gyroAngle == s.gyroAngle && r.lastGyroTimestamp == s.lastGyroTimestamp
    ensures r.angleData == s.angleData + [AngleDataPoint(r.time, r.algorithm1Angle, r.algorithm2Angle)]
    ensures ClockConsistent(s) ==> ClockConsistent(r)
  {
    var filteredAngle := EwmaFilter(calculateAngle(x, y, z), s.previousFilteredAngle);
    var fusedAngle := ComplementaryFilter(filteredAngle, s.gyroAngle);
    RecordPoint(s.(previousFilteredAngle := filteredAngle, algorithm1Angle := filteredAngle, algorithm2Angle := fusedAngle),
                filteredAngle, fusedAngle)
  }

  /** `onSensorChanged`: a null event, or one from any other sensor, changes nothing.
      Every event keeps the clock consistent with the series, adds one point exactly
      when it is a linear-acceleration event, and never alters earlier points. */
  function HandleEvent(s: ViewModelState, event: Option<SensorEvent>, calculateAngle: TiltFunction): (r: ViewModelState)
    requires event.Some? ==> WellFormed(event.value)
    ensures ClockConsistent(s) ==> ClockConsistent(r)
    ensures |r.angleData| == |s.angleData| + (if IsLinearAcceleration(event) then 1 else 0)
    ensures s.angleData <= r.angleData
  {
    match event
    case None => s
    case Some(e) =>
      match e.sensorType
      case LinearAcceleration => ProcessLinearAcceleration(s, e.values[0], e.values[1], e.values[2], calculateAngle)
      case Gyroscope => IntegrateGyro(s, e.timestamp, e.values[1])
      case Other => s
  }

  /** Every delivered event carries the axis values its handler reads. */
  predicate Delivered(events: seq<Option<SensorEvent>>) {
    forall i :: 0 <= i < |events| ==> events[i].Some? ==> WellFormed(events[i].value)
  }

  /** The state after handling the events in order. */
  function Run(s: ViewModelState, events: seq<Option<SensorEvent>>, calculateAngle: TiltFunction): ViewModelState
    requires Delivered(events)
  {
    if events == [] then s
    else HandleEvent(Run(s, events[..|events| - 1], calculateAngle), events[|events| - 1], calculateAngle)
  }

  predicate IsLinearAcceleration(event: Option<SensorEvent>) {
    event.Some? && event.value.sensorType.LinearAcceleration?
  }

  /** The number of linear-acceleration events among the events. */
  function CountLinearAcceleration(events: seq<Option<SensorEvent>>): nat {
    if events == [] then 0
    else CountLinearAcceleration(events[..|events| - 1]) + (if IsLinearAcceleration(events[|events| - 1]) then 1 else 0)
  }

  // ---------------------------------------------------------------------------
  // What each event changes and what it leaves alone

  /** A null event or an event of another sensor changes nothing. */
  lemma IgnoredEvent(s: ViewModelState, event: Option<SensorEvent>, calculateAngle: TiltFunction)
    requires event.None? || event.value.sensorType.Other?
    ensures HandleEvent(s, event, calculateAngle) == s
  {
  }

  /** A gyroscope event touches only the gyroscope angle and timestamp. The first
      sample (no earlier timestamp recorded) leaves the angle as it is; any later one
      adds values[1] times the nanosecond difference times 10^9. */
  lemma GyroscopeEvent(s: ViewModelState, e: SensorEvent, calculateAngle: TiltFunction)
    requires e.sensorType.Gyroscope? && WellFormed(e)
    ensures var r := HandleEvent(s, Some(e), calculateAngle);
      && r.angleData == s.angleData
      && r.time == s.time
      && r.previousFilteredAngle == s.previousFilteredAngle
      && r.algorithm1Angle == s.algorithm1Angle
      && r.algorithm2Angle == s.algorithm2Angle
      && r.lastGyroTimestamp == e.timestamp
      && (s.lastGyroTimestamp == 0 ==> r.gyroAngle == s.gyroAngle)
      && (s.lastGyroTimestamp != 0 ==>
            r.gyroAngle == s.gyroAngle + e.values[1] * ((e.timestamp - s.lastGyroTimestamp) as real * 1000000000.0))
  {
  }

  /** A linear-acceleration event: the new EWMA output becomes both the filter state
      and the published algorithm-1 value, lying between the raw tilt and the
      previous output; the algorithm-2 value fuses it with the unchanged gyroscope
      angle; exactly one point is appended, stamped 0.05 s after the previous clock,
      and the earlier points stay as they were. */
  lemma LinearAccelerationEvent(s: ViewModelState, e: SensorEvent, calculateAngle: TiltFunction)
    requires e.sensorType.LinearAcceleration? && WellFormed(e)
    ensures var r := HandleEvent(s, Some(e), calculateAngle);
      var raw := calculateAngle(e.values[0], e.values[1], e.values[2]);
      && r.previousFilteredAngle == r.algorithm1Angle
      && r.algorithm1Angle - raw == 0.9 * (s.previousFilteredAngle - raw)
      && Min(raw, s.previousFilteredAngle) <= r.algorithm1Angle <= Max(raw, s.previousFilteredAngle)
      && r.algorithm2Angle - r.algorithm1Angle == 0.02 * (s.gyroAngle - r.algorithm1Angle)
      && r.gyroAngle == s.gyroAngle
      && r.lastGyroTimestamp == s.lastGyroTimestamp
      && r.time == s.time + 0.05
      && |r.angleData| == |s.angleData| + 1
      && r.angleData[..|s.angleData|] == s.angleData
      && r.angleData[|s.angleData|] == AngleDataPoint(r.time, r.algorithm1Angle, r.algorithm2Angle)
  {
  }

  // ---------------------------------------------------------------------------
  // The clock and the series grow in lockstep

  /** The clock reads 0.05 s per recorded point, and point i is stamped 0.05 * (i+1). */
  ghost predicate ClockConsistent(s: ViewModelState) {
    && s.time == TimeStep * |s.angleData| as real
    && forall i :: 0 <= i < |s.angleData| ==> s.angleData[i].timestamp == TimeStep * (i + 1) as real
  }

  /** Over any sequence of events the series grows by one point per
      linear-acceleration event, earlier points are never altered, and the clock
      stays consistent with the series. */
  lemma {:induction false} RunKeepsClock(s: ViewModelState, events: seq<Option<SensorEvent>>, calculateAngle: TiltFunction)
    requires Delivered(events)
    requires ClockConsistent(s)
    ensures ClockConsistent(Run(s, events, calculateAngle))
    ensures |Run(s, events, calculateAngle).angleData| == |s.angleData| + CountLinearAcceleration(events)
    ensures s.angleData <= Run(s, events, calculateAngle).angleData
  {
    if events != [] {
      var prefix := events[..|events| - 1];
      assert Delivered(prefix) by {
        forall i | 0 <= i < |prefix| ensures prefix[i].Some? ==> WellFormed(prefix[i].value) {
          assert prefix[i] == events[i];
        }
      }
      RunKeepsClock(s, prefix, calculateAngle);
    }
  }

  /** In a consistent series the timestamps strictly increase. */
  lemma ClockStrictlyIncreasing(s: ViewModelState)
    requires ClockConsistent(s)
    ensures forall i, j :: 0 <= i < j < |s.angleData| ==> s.angleData[i].timestamp < s.angleData[j].timestamp
  {
  }

  /** A session: after `startMeasurement` and any events, with k of them
      linear-acceleration events, the series holds k points stamped 0.05, 0.10, ...,
      0.05 * k in strictly increasing order, and the clock reads 0.05 * k. */
  lemma {:induction false} SessionTimeline(s: ViewModelState, events: seq<Option<SensorEvent>>, calculateAngle: TiltFunction)
    requires Delivered(events)
    ensures var r := Run(Restart(s), events, calculateAngle);
      && |r.angleData| == CountLinearAcceleration(events)
      && r.time == 0.05 * CountLinearAcceleration(events) as real
      && (forall i :: 0 <= i < |r.angleData| ==> r.angleData[i].timestamp == 0.05 * (i + 1) as real)
      && (forall i, j :: 0 <= i < j < |r.angleData| ==> r.angleData[i].timestamp < r.angleData[j].timestamp)
  {
    RunKeepsClock(Restart(s), events, calculateAngle);
    ClockStrictlyIncreasing(Run(Restart(s), events, calculateAngle));
  }

  // ---------------------------------------------------------------------------
  // The filter stream

  /** When every linear-acceleration event yields the same raw tilt `a` (gyroscope
      and ignored events may come in between), the EWMA state after the events is
      the k-step iterate from its starting value, k being the number of
      linear-acceleration events; so by Filters.EwmaIterateGap and
      Filters.EwmaConverges it approaches `a` by a factor 0.9 per sample. */
  lemma {:induction false} ConstantTiltRun(s: ViewModelState, events: seq<Option<SensorEvent>>, calculateAngle: TiltFunction, a: real)
    requires Delivered(events)
    requires forall i :: 0 <= i < |events| && IsLinearAcceleration(events[i]) ==>
      calculateAngle(events[i].value.values[0], events[i].value.values[1], events[i].value.values[2]) == a
    ensures Run(s, events, calculateAngle).previousFilteredAngle == EwmaIterate(a, s.previousFilteredAngle, CountLinearAcceleration(events))
  {
    if events != [] {
      var prefix := events[..|events| - 1];
      assert Delivered(prefix) by {
        forall i | 0 <= i < |prefix| ensures prefix[i].Some? ==> WellFormed(prefix[i].value) {
          assert prefix[i] == events[i];
        }
      }
      forall i | 0 <= i < |prefix| && IsLinearAcceleration(prefix[i])
        ensures calculateAngle(prefix[i].value.values[0], prefix[i].value.values[1], prefix[i].value.values[2]) == a
      {
        assert prefix[i] == events[i];
      }
      ConstantTiltRun(s, prefix, calculateAngle, a);
    }
  }

  /** The worked example: from the initial state, one acceleration sample (0, 1, 0),
      whose tilt is atan2(1, 1) = 45 degrees, gives 4.5 for algorithm 1 and 4.41 for
      algorithm 2, recorded at 0.05 s. */
  lemma FirstSampleExample(calculateAngle: TiltFunction)
    requires calculateAngle(0.0, 1.0, 0.0) == 45.0
    ensures var r := Run(Initial, [Some(SensorEvent(LinearAcceleration, [0.0, 1.0, 0.0], 0))], calculateAngle);
      && r.algorithm1Angle == 4.5
      && r.algorithm2Angle == 4.41
      && r.angleData == [AngleDataPoint(0.05, 4.5, 4.41)]
  {
    var events := [Some(SensorEvent(LinearAcceleration, [0.0, 1.0, 0.0], 0))];
    assert events[..0] == [];
  }

  // ---------------------------------------------------------------------------
  // The view model object

  class LinearAccelerationViewModel {
    var angleData: seq<AngleDataPoint>
    var algorithm1Angle: real
    var algorithm2Angle: real
    var time: real
    var gyroAngle: real
    var lastGyroTimestamp: int
    var previousFilteredAngle: real

    /** `calculateAngle`, supplied to the view model (its trigonometry is not modelled). */
    const calculateAngle: TiltFunction

    ghost function State(): ViewModelState
      reads this
    {
      ViewModelState(angleData, algorithm1Angle, algorithm2Angle, time, gyroAngle, lastGyroTimestamp, previousFilteredAngle)
    }

    constructor (calculateAngle: TiltFunction)
      ensures State() == Initial
      ensures this.calculateAngle == calculateAngle
    {
      this.calculateAngle := calculateAngle;
      angleData := [];
      algorithm1Angle, algorithm2Angle := 0.0, 0.0;
      time := 0.0;
      gyroAngle, lastGyroTimestamp := 0.0, 0;
      previousFilteredAngle := 0.0;
    }

    method RecordData(algorithm1: real, algorithm2: real)
      modifies this
      ensures State() == RecordPoint(old(State()), algorithm1, algorithm2)
    {
      time := time + TimeStep;
      angleData := angleData + [AngleDataPoint(time, algorithm1, algorithm2)];
    }

    method StartMeasurement()
      modifies this
      ensures State() == Restart(old(State()))
      ensures ClockConsistent(State())
    {
      angleData := [];
      time := 0.0;
    }

    method UpdateGyroAngle(event: SensorEvent)
      requires |event.values| >= 2
      modifies this
      ensures State() == IntegrateGyro(old(State()), event.timestamp, event.values[1])
    {
      if lastGyroTimestamp != 0 {
        var dt := GyroStep(event.timestamp, lastGyroTimestamp);
        gyroAngle := gyroAngle + event.values[1] * dt;
      }
      lastGyroTimestamp := event.timestamp;
    }

    method OnSensorChanged(event: Option<SensorEvent>)
      requires event.Some? ==> WellFormed(event.value)
      modifies this
      ensures State() == HandleEvent(old(State()), event, calculateAngle)
    {
      match event
      case None =>
      case Some(it) =>
        match it.sensorType
        case LinearAcceleration =>
          var x, y, z := it.values[0], it.values[1], it.values[2];
          var rawAngle := calculateAngle(x, y, z);
          var filteredAngle := EwmaFilter(rawAngle, previousFilteredAngle);
          previousFilteredAngle := filteredAngle;
          algorithm1Angle := filteredAngle;
          var fusedAngle := ComplementaryFilter(filteredAngle, gyroAngle);
          algorithm2Angle := fusedAngle;
          RecordData(filteredAngle, fusedAngle);
        case Gyroscope =>
          UpdateGyroAngle(it);
        case Other =>
    }

    /** `exportDataToCsv`, without the file: the text written, given the number
        renderer. */
    method ExportDataToCsv(show: real -> string) returns (text: string)
      ensures text == Csv.CsvText(angleData, show)
    {
      text := Csv.Header + "\n";
      for i := 0 to |angleData|
        invariant text == Csv.Header + "\n" + Csv.Rows(angleData[..i], show)
      {
        var point := angleData[i];
        text := text + show(point.timestamp) + "," + show(point.algorithm1Angle) + "," + show(point.algorithm2Angle) + "\n";
        Csv.RowsAppend(angleData[..i], point, show);
        assert angleData[..i + 1] == angleData[..i] + [point];
      }
      assert angleData[..|angleData|] == angleData;
    }
  }
}
