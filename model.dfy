/** Values exchanged between the sensor layer and the shoulder-measurement view model:
    incoming sensor events and the recorded angle points. Android's 32-bit `Float`
    is modelled as `real`, and a nanosecond `Long` timestamp as `int`. */
module Model {

  datatype Option<+T> = None | Some(value: T)

  /** The sensor kinds `onSensorChanged` distinguishes; every other Android sensor
      type is `Other`. */
  datatype SensorType = LinearAcceleration | Gyroscope | Other

  /** One `SensorEvent`: its sensor's type, the `values` array and the event
      timestamp in nanoseconds. */
  datatype SensorEvent = SensorEvent(sensorType: SensorType, values: seq<real>, timestamp: int)

  /** The platform delivers three axis values for both sensor kinds the view model
      reads; the handler indexes `values[0..2]` (linear acceleration) and
      `values[1]` (gyroscope) without checking. */
  predicate WellFormed(e: SensorEvent) {
    (e.sensorType.LinearAcceleration? ==> |e.values| >= 3) &&
    (e.sensorType.Gyroscope? ==> |e.values| >= 2)
  }

  /** One recorded sample: the synthetic session time in seconds and the two angle
      estimates in degrees. */
  datatype AngleDataPoint = AngleDataPoint(timestamp: real, algorithm1Angle: real, algorithm2Angle: real)

  /** The tilt computation `calculateAngle(x, y, z)` = degrees(atan2(y, sqrt(x²+y²+z²))).
      Its trigonometry is not modelled: the view model is given this function. */
  type TiltFunction = (real, real, real) -> real
}
