/** Vocabulary shared by the Android and the iOS plugin: the sensors, the
    four event channels, opaque readings, what is sent down an event sink
    and the replies to method calls. */
module Sensors {

  /** None stands for a null reference on either platform. */
  datatype Option<+T> = None | Some(value: T)

  /** The three physical sensors the plugin exposes. */
  datatype Sensor = Accelerometer | Gyroscope | Magnetometer

  /** The four event channels: one per physical sensor, and the fused motion channel. */
  datatype Channel = Single(sensor: Sensor) | Fused

  /** A reading is an x/y/z triple whose values the model never computes with:
      unit conversion and timestamps are outside the model. */
  datatype Reading = Reading(x: int, y: int, z: int)

  /** A combined record: one entry per sensor, None for a null entry. */
  datatype Combined = Combined(accelerometer: Option<Reading>, gyroscope: Option<Reading>, magnetometer: Option<Reading>)

  /** The record with every entry null. */
  const NoData := Combined(None, None, None)

  /** The entry a combined record holds for one sensor. */
  function Entry(c: Combined, s: Sensor): Option<Reading>
  {
    match s
    case Accelerometer => c.accelerometer
    case Gyroscope => c.gyroscope
    case Magnetometer => c.magnetometer
  }

  /** The value a map holds for a sensor, None when it holds none. */
  function Lookup(m: map<Sensor, Reading>, s: Sensor): Option<Reading>
  {
    if s in m then Some(m[s]) else None
  }

  /** The combined record of a per-sensor cache: a sensor the cache has no
      reading for is null in the record, every other one carries its reading. */
  function Snapshot(m: map<Sensor, Reading>): (c: Combined)
    ensures forall s :: Entry(c, s).Some? <==> s in m
    ensures forall s :: s in m ==> Entry(c, s) == Some(m[s])
  {
    Combined(Lookup(m, Accelerometer), Lookup(m, Gyroscope), Lookup(m, Magnetometer))
  }

  /** An event sink handed over by the host runtime; only its identity matters. */
  datatype Sink = Sink(id: nat)

  /** What the plugin sends down an event sink. */
  datatype Emission =
    | Sample(to: Sink, sensor: Sensor, reading: Reading)
    | Motion(to: Sink, record: Combined)
    | EndOfStream(to: Sink)

  /** The value a successful method call answers with. */
  datatype Value = Flag(b: bool) | Axes(reading: Reading) | Record(record: Combined)

  /** The answer to one method call. */
  datatype Reply = Success(value: Value) | Error(code: string) | NotImplemented

  /** The method calls both platforms dispatch on. */
  datatype Call = IsMotionSensorAvailable | GetData(sensor: Sensor) | GetAllData | Unknown(name: string)
}
