/**
 * Sensor records shared by the detectors, the sensor buffers and the alert store.
 * Timestamps are whole seconds on one clock; the source's ISO-8601 strings and
 * `datetime` values are represented by that number.
 */
module Sensors {
  import opened Wrappers
  import Geo

  /**
   * One accelerometer/gyroscope reading. `accMagnitude` is the `acc_magnitude` key that the
   * normalisation step adds; raw samples from the phone do not carry it.
   */
  datatype ImuSample = ImuSample(
    timestamp: int,
    accelerationX: real, accelerationY: real, accelerationZ: real,
    gyroscopeX: real, gyroscopeY: real, gyroscopeZ: real,
    accMagnitude: Option<real>)

  /** One GPS fix; `speed` (km/h) and `timestamp` may be missing from the phone's record. */
  datatype Location = Location(latitude: real, longitude: real, speed: Option<real>, timestamp: Option<int>)
  {
    function ToPoint(): Geo.Point { Geo.Point(latitude, longitude) }
  }

  /** One batch from the phone: `imu_data` (absent is the same as empty) and an optional `location`. */
  datatype SensorData = SensorData(imuData: seq<ImuSample>, location: Option<Location>)

  /** The accelerometer magnitude `sqrt(ax^2 + ay^2 + az^2)`, supplied by the caller. */
  type MagnitudeFn = ImuSample -> real

  function Magnitudes(imu: seq<ImuSample>, magnitude: MagnitudeFn): (mags: seq<real>)
    ensures |mags| == |imu| && forall i :: 0 <= i < |imu| ==> mags[i] == magnitude(imu[i])
  {
    seq(|imu|, i requires 0 <= i < |imu| => magnitude(imu[i]))
  }
}
