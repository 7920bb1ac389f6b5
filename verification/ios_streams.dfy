/** The iOS plugin's stream lifecycle: per channel a listening flag and an
    event sink, and the set of Core Motion update sources running with a
    stream handler. Starting is guarded by the flag and by the availability
    of the source; the fused channel reads device motion, which carries no
    magnetometer entry. A data callback reaches the plugin only while the
    source's updates run. */
module IosStreams {
  import opened Sensors

  /** What the motion manager reports as available. */
  datatype Device = Device(deviceMotion: bool, sensors: set<Sensor>)

  /** One device-motion sample: the acceleration (user acceleration plus
      gravity) and the rotation rate, as opaque triples. */
  datatype DeviceMotion = DeviceMotion(acceleration: Reading, rotationRate: Reading)

  /** One channel's state: the listening flag and the sink the plugin holds. */
  datatype Flags = Flags(listening: bool, sink: Option<Sink>)

  /** The plugin: the device, the four channels, the update sources running
      with a stream handler, and every emission sent to a sink. */
  datatype Plugin = Plugin(
    device: Device,
    accel: Flags,
    gyro: Flags,
    mag: Flags,
    motion: Flags,
    updating: set<Channel>,
    out: seq<Emission>)

  /** Whether the motion manager can serve a channel. */
  predicate Available(d: Device, c: Channel)
  {
    match c
    case Single(s) => s in d.sensors
    case Fused => d.deviceMotion
  }

  /** The record a device-motion sample becomes: accelerometer and gyroscope
      filled in, magnetometer always null. */
  function MotionRecord(m: DeviceMotion): (c: Combined)
    ensures c.accelerometer == Some(m.acceleration) && c.gyroscope == Some(m.rotationRate)
    ensures c.magnetometer == None
  {
    Combined(Some(m.acceleration), Some(m.rotationRate), None)
  }

  /** The flags of one channel. */
  function Get(p: Plugin, c: Channel): Flags
  {
    match c
    case Single(Accelerometer) => p.accel
    case Single(Gyroscope) => p.gyro
    case Single(Magnetometer) => p.mag
    case Fused => p.motion
  }

  /** Replaces the flags of one channel and nothing else. */
  function Put(p: Plugin, c: Channel, f: Flags): (r: Plugin)
    ensures Get(r, c) == f
    ensures forall d :: d != c ==> Get(r, d) == Get(p, d)
    ensures r.device == p.device && r.updating == p.updating && r.out == p.out
  {
    match c
    case Single(Accelerometer) => p.(accel := f)
    case Single(Gyroscope) => p.(gyro := f)
    case Single(Magnetometer) => p.(mag := f)
    case Fused => p.(motion := f)
  }

  /** The invariant every reachable plugin state keeps: a source's updates run
      exactly while its channel listens, a listening channel is available, and
      a listening channel holds a sink. */
  ghost predicate Good(p: Plugin)
  {
    forall c ::
      && (c in p.updating <==> Get(p, c).listening)
      && (Get(p, c).listening ==> Available(p.device, c) && Get(p, c).sink.Some?)
  }

  const Idle := Flags(false, None)

  /** The plugin after registration with the host. */
  function Register(device: Device): (p: Plugin)
    ensures Good(p)
    ensures p.device == device && forall c :: Get(p, c) == Idle
    ensures p.updating == {} && p.out == []
  {
    Plugin(device, Idle, Idle, Idle, Idle, {}, [])
  }

  /** startAccelerometerStream and its siblings: nothing happens when the
      channel already listens or its source is unavailable. */
  function Start(p: Plugin, c: Channel): (r: Plugin)
    ensures Get(p, c).listening || !Available(p.device, c) ==> r == p
    ensures !Get(p, c).listening && Available(p.device, c) ==>
              Get(r, c).listening && r.updating == p.updating + {c}
    ensures Get(r, c).sink == Get(p, c).sink
    ensures forall d :: d != c ==> Get(r, d) == Get(p, d)
    ensures r.device == p.device && r.out == p.out
  {
    var f := Get(p, c);
    if f.listening || !Available(p.device, c) then p
    else Put(p, c, f.(listening := true)).(updating := p.updating + {c})
  }

  /** stopAccelerometerStream and its siblings: nothing happens when the
      channel does not listen; otherwise its updates stop and its sink is dropped. */
  function Stop(p: Plugin, c: Channel): (r: Plugin)
    ensures !Get(p, c).listening ==> r == p
    ensures Get(p, c).listening ==> Get(r, c) == Flags(false, None) && r.updating == p.updating - {c}
    ensures forall d :: d != c ==> Get(r, d) == Get(p, d)
    ensures r.device == p.device && r.out == p.out
  {
    if !Get(p, c).listening then p
    else Put(p, c, Flags(false, None)).(updating := p.updating - {c})
  }

  /** onListen of a stream handler: installs the sink, then starts. */
  function OnListen(p: Plugin, c: Channel, events: Sink): (r: Plugin)
    ensures Get(r, c).sink == Some(events)
    ensures Get(p, c).listening ==> Get(r, c).listening && r.updating == p.updating
    ensures !Get(p, c).listening ==>
              (Get(r, c).listening <==> Available(p.device, c))
              && r.updating == p.updating + (if Available(p.device, c) then {c} else {})
    ensures forall d :: d != c ==> Get(r, d) == Get(p, d)
    ensures r.device == p.device && r.out == p.out
    ensures Good(p) ==> Good(r)
  {
    Start(Put(p, c, Get(p, c).(sink := Some(events))), c)
  }

  /** onCancel of a stream handler: stops the stream. A channel that never
      started (its source unavailable) keeps the sink onListen installed. */
  function OnCancel(p: Plugin, c: Channel): (r: Plugin)
    ensures !Get(r, c).listening
    ensures !Get(p, c).listening ==> r == p
    ensures Get(p, c).listening ==> Get(r, c).sink == None
    ensures Good(p) ==> c !in r.updating
    ensures r.updating == if Get(p, c).listening then p.updating - {c} else p.updating
    ensures forall d :: d != c ==> Get(r, d) == Get(p, d)
    ensures r.device == p.device && r.out == p.out
    ensures Good(p) ==> Good(r)
  {
    Stop(p, c)
  }

  /** A callback of an individual sensor's stream handler: a sample reaches
      the sink when there is data and a sink. */
  function SensorUpdate(p: Plugin, s: Sensor, data: Option<Reading>): (r: Plugin)
    ensures Single(s) !in p.updating || data.None? || Get(p, Single(s)).sink.None? ==> r == p
    ensures Good(p) && Get(p, Single(s)).listening && data.Some? ==>
              r.out == p.out + [Sample(Get(p, Single(s)).sink.value, s, data.value)]
    ensures forall c :: Get(r, c) == Get(p, c)
    ensures r.device == p.device && r.updating == p.updating
  {
    var k := Get(p, Single(s)).sink;
    if Single(s) in p.updating && data.Some? && k.Some? then p.(out := p.out + [Sample(k.value, s, data.value)])
    else p
  }

  /** A callback of the device-motion stream handler. */
  function MotionUpdate(p: Plugin, data: Option<DeviceMotion>): (r: Plugin)
    ensures Fused !in p.updating || data.None? || Get(p, Fused).sink.None? ==> r == p
    ensures Fused in p.updating && data.Some? && Get(p, Fused).sink.Some? ==>
              r.out == p.out + [Motion(Get(p, Fused).sink.value, MotionRecord(data.value))]
    ensures Good(p) && Get(p, Fused).listening && data.Some? ==> |r.out| == |p.out| + 1
    ensures |p.out| <= |r.out| && r.out[..|p.out|] == p.out
    ensures forall i :: |p.out| <= i < |r.out| ==> r.out[i].Motion? && r.out[i].record.magnetometer == None
    ensures forall c :: Get(r, c) == Get(p, c)
    ensures r.device == p.device && r.updating == p.updating
  {
    var k := Get(p, Fused).sink;
    if Fused in p.updating && data.Some? && k.Some? then p.(out := p.out + [Motion(k.value, MotionRecord(data.value))])
    else p
  }

  /** What can happen to the plugin. */
  datatype Event =
    | Listen(channel: Channel, events: Sink)
    | Cancel(channel: Channel)
    | SensorData(sensor: Sensor, data: Option<Reading>)
    | MotionData(motion: Option<DeviceMotion>)

  function Step(p: Plugin, e: Event): Plugin
  {
    match e
    case Listen(c, k) => OnListen(p, c, k)
    case Cancel(c) => OnCancel(p, c)
    case SensorData(s, d) => SensorUpdate(p, s, d)
    case MotionData(d) => MotionUpdate(p, d)
  }

  /** The events processed one after the other, oldest first. */
  function Run(p: Plugin, es: seq<Event>): Plugin
    decreases |es|
  {
    if es == [] then p else Run(Step(p, es[0]), es[1..])
  }

  // ---------------------------------------------------------------------
  // Properties

  /** Stopping twice is stopping once, and so is cancelling. */
  lemma StopIdempotent(p: Plugin, c: Channel)
    ensures Stop(Stop(p, c), c) == Stop(p, c)
    ensures OnCancel(OnCancel(p, c), c) == OnCancel(p, c)
  {
  }

  /** Listening again to a listening channel only replaces its sink: no
      second update source is started. */
  lemma RelistenReplacesSink(p: Plugin, c: Channel, k: Sink)
    requires Good(p) && Get(p, c).listening
    ensures OnListen(p, c, k) == Put(p, c, Flags(true, Some(k)))
  {
  }

  lemma StepKeepsGood(p: Plugin, e: Event)
    requires Good(p)
    ensures Good(Step(p, e))
  {
  }

  /** Any sequence of events keeps the invariant, and what was sent to a
      sink stays sent: a run only appends emissions. */
  lemma {:induction false} RunKeepsGood(p: Plugin, es: seq<Event>)
    requires Good(p)
    ensures Good(Run(p, es))
    ensures Run(p, es).device == p.device
    ensures |p.out| <= |Run(p, es).out| && Run(p, es).out[..|p.out|] == p.out
    decreases |es|
  {
    if es != [] {
      StepKeepsGood(p, es[0]);
      RunKeepsGood(Step(p, es[0]), es[1..]);
    }
  }

  /** Every emission of the motion stream, over any run, is a motion record
      without a magnetometer entry; no other stream ever sends a motion record. */
  lemma {:induction false} MotionNeverHasMagnetometer(p: Plugin, es: seq<Event>)
    requires forall e :: e in p.out && e.Motion? ==> e.record.magnetometer == None
    ensures forall e :: e in Run(p, es).out && e.Motion? ==> e.record.magnetometer == None
    decreases |es|
  {
    if es != [] {
      var q := Step(p, es[0]);
      assert forall e :: e in q.out && e.Motion? ==> e.record.magnetometer == None by {
        forall e | e in q.out && e.Motion?
          ensures e.record.magnetometer == None
        {
          var i :| 0 <= i < |q.out| && q.out[i] == e;
          if i >= |p.out| {
            assert es[0].MotionData?;
          } else {
            assert e == p.out[i];
          }
        }
      }
      MotionNeverHasMagnetometer(q, es[1..]);
    }
  }
}
