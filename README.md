# Shoulder measurement: sensor-fusion view model in Dafny

This project models the core of the KotlinSensors shoulder-measurement app: the
`LinearAccelerationViewModel`. The view model takes sensor events and turns each
linear-acceleration sample into two joint-angle estimates:

- Algorithm 1 is an exponentially weighted moving average (EWMA, α = 0.1) of the tilt angle.
- Algorithm 2 is a complementary filter (β = 0.98) that blends the Algorithm 1 value with an angle integrated from the gyroscope.

Each pair is recorded as an `AngleDataPoint` stamped with a synthetic clock that advances by 0.05 s per sample. The recorded series can be exported as CSV text.

Files:

- `model.dfy` (module `Model`) defines sensor events, the `AngleDataPoint` record, and the type of the tilt function.
- `filters.dfy` (module `Filters`) holds `ewmaFilter`, `complementaryFilter` and the gyroscope time step. It also proves the convergence of the EWMA under a constant input.
- `csv.dfy` (module `Csv`) defines the text `exportDataToCsv` writes and a reader of that text. It proves the line structure and the round trip.
- `view_model.dfy` (module `ViewModel`) defines the event transitions as functions on a `ViewModelState` and proves the session properties about them. It also holds the class `LinearAccelerationViewModel`, whose fields and methods mirror the Kotlin class. Each of its methods is proved to perform the corresponding transition.

Modelling choices:

- Kotlin `Float` is modelled as `real` and the nanosecond `Long` timestamps as `int`.
- `calculateAngle` (`sqrt`, `atan2`, `toDegrees`) is a function the view model is given at construction. Its trigonometry is not modelled.
- The number-to-text conversion used by the export is a parameter `show`. The line structure of the export assumes only that `show` writes no comma and no line break. The round trip assumes in addition a reader `read` that gives back each recorded number from its rendering; this is asked only of the numbers actually recorded.
- The published `StateFlow` values are plain fields (`algorithm1Angle`, `algorithm2Angle`).

The model follows the code as written in these places:

- `startMeasurement` clears only the recorded points and the clock (LinearAccelerationViewModel.kt:104-105). The EWMA state, the gyroscope angle and the last gyroscope timestamp carry over into the next session. They are not reset.
- The "no previous gyroscope sample" marker is the value 0 of `lastGyroTimestamp`, not an absent value. It is set only once, at construction. A gyroscope event stamped 0 therefore makes the next event count as a first sample again.
- The gyroscope time step is `(timestamp - lastGyroTimestamp) / 1e-9` (LinearAccelerationViewModel.kt:139). That is nanoseconds times 10^9, not times 10^-9. This is a defect in the source: the step is 10^18 times the elapsed seconds. It is reproduced as written in `Filters.GyroStep`, and `Filters.GyroStepIsScaledElapsedSeconds` states the factor.

## Model

| member | source | states |
|---|---|---|
| `Filters.EwmaFilter` | app/src/main/java/com/example/shouldermeasurement/ViewModels/LinearAccelerationViewModel.kt:133-135 | one EWMA step lies between the previous output and the input (inclusive), and closes exactly a tenth of the gap to the input |
| `Filters.ComplementaryFilter` | app/src/main/java/com/example/shouldermeasurement/ViewModels/LinearAccelerationViewModel.kt:145-147 | the fused angle lies between the smoothed tilt and the gyroscope angle, 2% of the way from the tilt towards the gyroscope angle |
| `Filters.GyroStep` | app/src/main/java/com/example/shouldermeasurement/ViewModels/LinearAccelerationViewModel.kt:139 | the time step as written is the nanosecond difference multiplied by 10^9 |
| `Filters.GyroStepIsScaledElapsedSeconds` | app/src/main/java/com/example/shouldermeasurement/ViewModels/LinearAccelerationViewModel.kt:139 | the time step as written is 10^18 times the elapsed time in seconds (the conversion defect) |
| `Filters.EwmaIterateGap` | app/src/main/java/com/example/shouldermeasurement/ViewModels/LinearAccelerationViewModel.kt:68-69 | feeding each output back as the previous one with a constant input, the gap to that input after n steps is 0.9^n times the initial gap |
| `Filters.EwmaIterateMonotone` | app/src/main/java/com/example/shouldermeasurement/ViewModels/LinearAccelerationViewModel.kt:68-69 | with a constant input every output stays between the start value and the input, and each step is no farther from the input than the one before |
| `Filters.EwmaConverges` | app/src/main/java/com/example/shouldermeasurement/ViewModels/LinearAccelerationViewModel.kt:68-69 | with a constant input, for every tolerance there is a step count from which on the output stays within the tolerance of the input |
| `Csv.RowsAppend` | app/src/main/java/com/example/shouldermeasurement/ViewModels/LinearAccelerationViewModel.kt:160-161 | writing one more point appends exactly that point's line `t,a1,a2` and a line break to the text |
| `Csv.RowLineFields` | app/src/main/java/com/example/shouldermeasurement/ViewModels/LinearAccelerationViewModel.kt:161 | a point's line has no line break and splits on commas into exactly its three rendered numbers |
| `Csv.CsvText` | app/src/main/java/com/example/shouldermeasurement/ViewModels/LinearAccelerationViewModel.kt:158-162 | the exported text's lines are the header line followed by one line per point in list order, so N points give exactly N+1 lines |
| `Csv.CsvRoundTrip` | app/src/main/java/com/example/shouldermeasurement/ViewModels/LinearAccelerationViewModel.kt:158-162 | reading the exported text back, with a reader that gives back each recorded number from its rendering, yields every recorded point, in order |
| `ViewModel.RecordPoint` | app/src/main/java/com/example/shouldermeasurement/ViewModels/LinearAccelerationViewModel.kt:97-100 | recording appends exactly one point, stamped with the advanced clock, keeps the earlier points as a prefix, keeps the clock consistent with the series, and changes nothing else |
| `ViewModel.Restart` | app/src/main/java/com/example/shouldermeasurement/ViewModels/LinearAccelerationViewModel.kt:103-106 | starting a measurement empties the series and zeroes the clock (which are then consistent), and keeps the EWMA state, the gyroscope angle and timestamp, and the published values |
| `ViewModel.IntegrateGyro` | app/src/main/java/com/example/shouldermeasurement/ViewModels/LinearAccelerationViewModel.kt:137-143 | the gyroscope update changes only the gyroscope angle and timestamp. It sets the timestamp to the event's. With no earlier timestamp (0) the angle is unchanged. Otherwise the angular velocity times 10^18 times the elapsed seconds is added |
| `ViewModel.ProcessLinearAcceleration` | app/src/main/java/com/example/shouldermeasurement/ViewModels/LinearAccelerationViewModel.kt:59-78 | the EWMA output becomes both the filter state and the algorithm-1 value, the algorithm-2 value is its fusion with the unchanged gyroscope angle, one point with both values is appended, and the clock stays consistent with the series |
| `ViewModel.HandleEvent` | app/src/main/java/com/example/shouldermeasurement/ViewModels/LinearAccelerationViewModel.kt:56-86 | every event keeps the clock at 0.05 per recorded point with point i stamped 0.05*(i+1), adds one point exactly when it is a linear-acceleration event, and never alters earlier points |
| `ViewModel.IgnoredEvent` | app/src/main/java/com/example/shouldermeasurement/ViewModels/LinearAccelerationViewModel.kt:57-84 | a null event or an event from any other sensor type changes nothing |
| `ViewModel.GyroscopeEvent` | app/src/main/java/com/example/shouldermeasurement/ViewModels/LinearAccelerationViewModel.kt:137-143 | a gyroscope event leaves the series, the clock, the EWMA state and both published values alone, and sets the last timestamp to the event's. With no earlier timestamp (0) the gyroscope angle is unchanged. Otherwise values[1] times the difference times 10^9 is added to it |
| `ViewModel.LinearAccelerationEvent` | app/src/main/java/com/example/shouldermeasurement/ViewModels/LinearAccelerationViewModel.kt:59-78 | the new EWMA output becomes both the filter state and the algorithm-1 value, and lies between the raw tilt and the previous output. The algorithm-2 value fuses it with the unchanged gyroscope angle. The clock advances by 0.05, exactly one point `(time, a1, a2)` is appended, and the earlier points stay unchanged |
| `ViewModel.RunKeepsClock` | app/src/main/java/com/example/shouldermeasurement/ViewModels/LinearAccelerationViewModel.kt:97-100 | over any sequence of events the series grows by one point per linear-acceleration event, keeps its earlier points as a prefix, and stays in step with the clock |
| `ViewModel.ClockStrictlyIncreasing` | app/src/main/java/com/example/shouldermeasurement/ViewModels/LinearAccelerationViewModel.kt:98-99 | the recorded timestamps strictly increase |
| `ViewModel.SessionTimeline` | app/src/main/java/com/example/shouldermeasurement/ViewModels/LinearAccelerationViewModel.kt:103-105 | after `startMeasurement` and events of which k are linear-acceleration events, the series has k points stamped 0.05*i for i = 1..k in strictly increasing order, and the clock reads 0.05*k |
| `ViewModel.ConstantTiltRun` | app/src/main/java/com/example/shouldermeasurement/ViewModels/LinearAccelerationViewModel.kt:65-69 | when every linear-acceleration event has the same raw tilt, the EWMA state after k of them (other events interleaved) is the k-step iterate from its starting value |
| `ViewModel.FirstSampleExample` | app/src/main/java/com/example/shouldermeasurement/ViewModels/LinearAccelerationViewModel.kt:59-78 | from the initial state, a first sample whose tilt is 45 degrees publishes 4.5 and 4.41 and records the point (0.05, 4.5, 4.41) |
| `ViewModel.LinearAccelerationViewModel.constructor` | app/src/main/java/com/example/shouldermeasurement/ViewModels/LinearAccelerationViewModel.kt:30-52 | every field starts at zero and the series is empty |
| `ViewModel.LinearAccelerationViewModel.RecordData` | app/src/main/java/com/example/shouldermeasurement/ViewModels/LinearAccelerationViewModel.kt:97-100 | the clock advances by 0.05 and one point stamped with the new clock is appended, and nothing else changes |
| `ViewModel.LinearAccelerationViewModel.StartMeasurement` | app/src/main/java/com/example/shouldermeasurement/ViewModels/LinearAccelerationViewModel.kt:103-106 | the new state is the restart transition (series empty, clock 0, filter state kept), and the clock is consistent with the series |
| `ViewModel.LinearAccelerationViewModel.UpdateGyroAngle` | app/src/main/java/com/example/shouldermeasurement/ViewModels/LinearAccelerationViewModel.kt:137-143 | the new state is the gyroscope transition of the old one |
| `ViewModel.LinearAccelerationViewModel.OnSensorChanged` | app/src/main/java/com/example/shouldermeasurement/ViewModels/LinearAccelerationViewModel.kt:56-86 | the new state is the event transition of the old one, so every lemma about the transitions holds of the object |
| `ViewModel.LinearAccelerationViewModel.ExportDataToCsv` | app/src/main/java/com/example/shouldermeasurement/ViewModels/LinearAccelerationViewModel.kt:156-163 | the text written by the loop is the header line followed by every recorded point's line, in order |

## Left out

- Sensor lookup in `init`, registering and unregistering listeners in `startMeasurement` and `stopMeasurement`, and `onAccuracyChanged` are platform I/O. Stopping a measurement is modelled as "no more events arrive".
- The real values of `sqrt`, `atan2` and `Math.toDegrees` are floating-point numerics. `calculateAngle` is a function supplied to the model, so the platform's value for a zero vector is not pinned.
- 32-bit float rounding is not modelled because the model works over exact reals. This covers the repeated `time += 0.05f`, the constant `1e-9f`, and the Double-to-Float conversion of the tilt. NaN and infinity do not exist in the model.
- Overflow of the `Long` timestamp difference is not modelled, because timestamps are unbounded integers.
- The export's file handling is I/O. This covers the external documents directory, the `currentTimeMillis` file name, the `FileWriter`, and `IOException` turning into `null`. Only the text written is modelled.
- Kotlin's Float-to-String conversion is not modelled: `show` stands for it.
- The `StateFlow` publishing and the `ViewModelProvider.Factory` are Android plumbing. The published values are plain fields.
- ShoulderMeasurementScreen.kt, MainActivity.kt and MainApplication.kt are not part of this model. They hold Compose UI, chart rendering and Android lifecycle wiring.
- ViewModel.FirstSampleExample: takes the tilt of (0, 1, 0) being 45 degrees as a hypothesis, because the trigonometry is not modelled.
