/** The Android plugin's stream lifecycle: per channel a compare-and-set
    listening flag, a streamActive flag and an event sink; one listener
    registration per sensor shared by all four channels; a cache of the
    latest reading of each sensor; and the log of everything sent to a sink.
    The sensor manager is abstracted as the set of registered sensors, and a
    sensor callback reaches the plugin only while its sensor is registered. */
module AndroidStreams {
  import opened Sensors

  /** One channel's state: `listening` is the flag start and stop
      compare-and-set, `active` the stream handler's streamActive flag,
      `sink` the event sink the plugin holds for the channel. */
  datatype Flags = Flags(listening: bool, active: bool, sink: Option<Sink>)

  /** The attached plugin. `device` holds the sensors the sensor manager
      returned a default sensor for; `registered` the sensors the plugin's own
      listener is registered for; `last` the latest cached reading per
      sensor; `out` every emission sent to a sink, oldest first. */
  datatype Plugin = Plugin(
    device: set<Sensor>,
    accel: Flags,
    gyro: Flags,
    mag: Flags,
    motion: Flags,
    registered: set<Sensor>,
    last: map<Sensor, Reading>,
    out: seq<Emission>)

  /** The state of every channel before any stream is listened to. */
  const Idle := Flags(false, false, None)

  /** The flags of one channel. */
  function Get(p: Plugin, c: Channel): Flags
  {
    match c
    case Single(Accelerometer) => p.accel
    case Single(Gyroscope) => p.gyro
    case Single(Magnetometer) => p.mag
    case Fused => p.motion
  }

  /** Replaces the flags of one channel and nothing else. */
  function Put(p: Plugin, c: Channel, f: Flags): (r: Plugin)
    ensures Get(r, c) == f
    ensures forall d :: d != c ==> Get(r, d) == Get(p, d)
    ensures r.device == p.device && r.registered == p.registered
    ensures r.last == p.last && r.out == p.out
  {
    match c
    case Single(Accelerometer) => p.(accel := f)
    case Single(Gyroscope) => p.(gyro := f)
    case Single(Magnetometer) => p.(mag := f)
    case Fused => p.(motion := f)
  }

  /** Whether the individual stream of sensor `s` is listening. */
  predicate Listening(p: Plugin, s: Sensor)
  {
    Get(p, Single(s)).listening
  }

  /** The invariant every reachable plugin state keeps: the plugin's listener
      is registered for a sensor only if the sensor exists and its own stream
      or the motion stream listens; an individually listening sensor is always
      registered; a listening channel is active; an inactive channel holds no sink. */
  ghost predicate Good(p: Plugin)
  {
    && Covered(p)
    && (forall s :: Listening(p, s) ==> s in p.registered)
    && (forall c :: Get(p, c).listening ==> Get(p, c).active)
    && (forall c :: !Get(p, c).active ==> Get(p, c).sink == None)
  }

  /** The plugin right after it is attached to the engine, given the sensors
      the device has. */
  function Attach(device: set<Sensor>): (p: Plugin)
    ensures Good(p)
    ensures p.device == device && p.registered == {} && p.out == []
    ensures forall c :: Get(p, c) == Idle
    ensures forall s :: Lookup(p.last, s) == None
  {
    Plugin(device, Idle, Idle, Idle, Idle, {}, map[], [])
  }

  /** startAccelerometer / startGyroscope / startMagnetometer. */
  function StartSensor(p: Plugin, s: Sensor): (r: Plugin)
    ensures Listening(p, s) ==> r == p
    ensures !Listening(p, s) && s !in p.device ==> r == p
    ensures !Listening(p, s) && s in p.device ==> Listening(r, s) && r.registered == p.registered + {s}
    ensures Listening(r, s) <==> Listening(p, s) || s in p.device
    ensures forall c :: c != Single(s) ==> Get(r, c) == Get(p, c)
    ensures Get(r, Single(s)).active == Get(p, Single(s)).active
    ensures Get(r, Single(s)).sink == Get(p, Single(s)).sink
    ensures r.device == p.device && r.last == p.last && r.out == p.out
  {
    var f := Get(p, Single(s));
    if f.listening then p
    else if s in p.device then Put(p, Single(s), f.(listening := true)).(registered := p.registered + {s})
    else p
  }

  /** stopAccelerometer / stopGyroscope / stopMagnetometer. The sensor is
      unregistered even when the motion stream still listens to it. */
  function StopSensor(p: Plugin, s: Sensor): (r: Plugin)
    ensures !Listening(p, s) ==> r == p
    ensures !Listening(r, s)
    ensures Listening(p, s) && s in p.device ==> r.registered == p.registered - {s}
    ensures Listening(p, s) && s !in p.device ==> r.registered == p.registered
    ensures forall c :: c != Single(s) ==> Get(r, c) == Get(p, c)
    ensures Get(r, Single(s)).active == Get(p, Single(s)).active
    ensures Get(r, Single(s)).sink == Get(p, Single(s)).sink
    ensures r.device == p.device && r.last == p.last && r.out == p.out
  {
    var f := Get(p, Single(s));
    if !f.listening then p
    else
      var q := Put(p, Single(s), f.(listening := false));
      if s in p.device then q.(registered := p.registered - {s}) else q
  }

  /** startMotion: registers every existing sensor, whether or not its own
      stream already did. */
  function StartMotion(p: Plugin): (r: Plugin)
    ensures Get(p, Fused).listening ==> r == p
    ensures Get(r, Fused).listening
    ensures !Get(p, Fused).listening ==> r.registered == p.registered + p.device
    ensures forall c :: c != Fused ==> Get(r, c) == Get(p, c)
    ensures Get(r, Fused).active == Get(p, Fused).active && Get(r, Fused).sink == Get(p, Fused).sink
    ensures r.device == p.device && r.last == p.last && r.out == p.out
  {
    var f := Get(p, Fused);
    if f.listening then p
    else Put(p, Fused, f.(listening := true)).(registered := p.registered + p.device)
  }

  /** stopMotion: unregisters only the sensors whose individual stream does
      not listen. */
  function StopMotion(p: Plugin): (r: Plugin)
    ensures !Get(p, Fused).listening ==> r == p
    ensures !Get(r, Fused).listening
    ensures r.registered <= p.registered
    ensures forall s :: Listening(p, s) ==> (s in r.registered <==> s in p.registered)
    ensures Get(p, Fused).listening ==> forall s :: s in p.device && !Listening(p, s) ==> s !in r.registered
    ensures forall c :: c != Fused ==> Get(r, c) == Get(p, c)
    ensures Get(r, Fused).active == Get(p, Fused).active && Get(r, Fused).sink == Get(p, Fused).sink
    ensures r.device == p.device && r.last == p.last && r.out == p.out
  {
    var f := Get(p, Fused);
    if !f.listening then p
    else
      var idle := set s | s in p.device && !Listening(p, s);
      Put(p, Fused, f.(listening := false)).(registered := p.registered - idle)
  }

  /** The start function a channel's stream handler calls. */
  function Start(p: Plugin, c: Channel): (r: Plugin)
    ensures Get(r, c).active == Get(p, c).active && Get(r, c).sink == Get(p, c).sink
    ensures forall d :: d != c ==> Get(r, d) == Get(p, d)
    ensures r.device == p.device && r.last == p.last && r.out == p.out
  {
    match c
    case Single(s) => StartSensor(p, s)
    case Fused => StartMotion(p)
  }

  /** The stop function a channel's stream handler calls. */
  function Stop(p: Plugin, c: Channel): (r: Plugin)
    ensures !Get(r, c).listening
    ensures Get(r, c).active == Get(p, c).active && Get(r, c).sink == Get(p, c).sink
    ensures forall d :: d != c ==> Get(r, d) == Get(p, d)
    ensures r.device == p.device && r.last == p.last && r.out == p.out
  {
    match c
    case Single(s) => StopSensor(p, s)
    case Fused => StopMotion(p)
  }

  /** Ends the stream a channel's current sink holds, if it holds one. */
  function EndSink(p: Plugin, c: Channel): Plugin
  {
    match Get(p, c).sink
    case Some(k) => p.(out := p.out + [EndOfStream(k)])
    case None => p
  }

  /** onListen of a channel's stream handler: a stream that is already active
      has its old sink ended and is stopped first; then the new sink is
      installed, the channel is marked active and the stream is started. */
  function OnListen(p: Plugin, c: Channel, events: Option<Sink>): (r: Plugin)
    ensures Get(r, c).sink == events && Get(r, c).active
    ensures Get(p, c).active && Get(p, c).sink.Some? ==> r.out == p.out + [EndOfStream(Get(p, c).sink.value)]
    ensures !(Get(p, c).active && Get(p, c).sink.Some?) ==> r.out == p.out
    ensures Good(p) ==> (Get(r, c).listening <==> c.Fused? || c.sensor in p.device)
    ensures Good(p) && c.Single? && c.sensor in p.device ==> r.registered == p.registered + {c.sensor}
    ensures Good(p) && c.Single? && c.sensor !in p.device ==> r.registered == p.registered
    ensures Good(p) && c.Fused? ==> r.registered == p.registered + p.device
    ensures forall d :: d != c ==> Get(r, d) == Get(p, d)
    ensures r.device == p.device && r.last == p.last
    ensures Good(p) ==> Good(r)
  {
    var q := if Get(p, c).active then Stop(EndSink(p, c), c) else p;
    Start(Put(q, c, Get(q, c).(sink := events, active := true)), c)
  }

  /** onCancel of a channel's stream handler: an active stream drops its
      sink, becomes inactive and is stopped; otherwise nothing happens. */
  function OnCancel(p: Plugin, c: Channel): (r: Plugin)
    ensures !Get(r, c).active
    ensures Get(p, c).active ==> Get(r, c).sink == None && !Get(r, c).listening
    ensures !Get(p, c).active ==> r == p
    ensures Good(p) ==> Get(r, c).sink == None && !Get(r, c).listening
    ensures forall d :: d != c ==> Get(r, d) == Get(p, d)
    ensures r.device == p.device && r.last == p.last && r.out == p.out
    ensures !Get(p, c).active ==> r.registered == p.registered
    ensures Get(p, c).active && c.Single? ==>
              r.registered == if Listening(p, c.sensor) && c.sensor in p.device then p.registered - {c.sensor} else p.registered
    ensures Get(p, c).active && c.Fused? ==>
              r.registered == if Get(p, Fused).listening then p.registered - set s | s in p.device && !Listening(p, s)
                              else p.registered
    ensures Good(p) ==> Good(r)
  {
    if Get(p, c).active then Stop(Put(p, c, Get(p, c).(sink := None, active := false)), c)
    else p
  }

  /** updateMotionEvent: while the motion stream listens, the motion sink (if
      any) receives the record of the current caches. */
  function UpdateMotionEvent(p: Plugin): Plugin
  {
    var f := Get(p, Fused);
    if f.listening && f.sink.Some? then p.(out := p.out + [Motion(f.sink.value, Snapshot(p.last))])
    else p
  }

  /** onSensorChanged of the plugin's own listener: caches the reading, sends
      it to the sensor's sink if there is one, then updates the motion stream. */
  function OnSensorChanged(p: Plugin, s: Sensor, v: Reading): (r: Plugin)
    ensures r.last == p.last[s := v]
    ensures |p.out| <= |r.out| && r.out[..|p.out|] == p.out
    ensures |r.out| == |p.out| + (if Get(p, Single(s)).sink.Some? then 1 else 0)
                              + (if Get(p, Fused).listening && Get(p, Fused).sink.Some? then 1 else 0)
    ensures Get(p, Single(s)).sink.Some? ==> r.out[|p.out|] == Sample(Get(p, Single(s)).sink.value, s, v)
    ensures Get(p, Fused).listening && Get(p, Fused).sink.Some? ==>
              r.out[|r.out| - 1] == Motion(Get(p, Fused).sink.value, Snapshot(r.last))
    ensures forall c :: Get(r, c) == Get(p, c)
    ensures r.device == p.device && r.registered == p.registered
  {
    var q := p.(last := p.last[s := v]);
    var f := Get(p, Single(s));
    var sample := if f.sink.Some? then [Sample(f.sink.value, s, v)] else [];
    var m := Get(p, Fused);
    var motion := if m.listening && m.sink.Some? then [Motion(m.sink.value, Snapshot(q.last))] else [];
    var r := UpdateMotionEvent(q.(out := q.out + sample));
    assert r.out == p.out + sample + motion;
    assert r.out[|p.out|..] == sample + motion;
    r
  }

  /** The sensor manager invokes the plugin's listener only for a sensor it is registered for. */
  function Deliver(p: Plugin, s: Sensor, v: Reading): Plugin
  {
    if s in p.registered then OnSensorChanged(p, s, v) else p
  }

  /** stopAllSensors, called when the plugin is detached from the engine. */
  function StopAll(p: Plugin): Plugin
  {
    StopMotion(StopSensor(StopSensor(StopSensor(p, Accelerometer), Gyroscope), Magnetometer))
  }

  /** What can happen to the plugin: a stream handler's onListen or onCancel,
      a reading from the hardware, or detachment from the engine. */
  datatype Event =
    | Listen(channel: Channel, events: Option<Sink>)
    | Cancel(channel: Channel)
    | Changed(sensor: Sensor, reading: Reading)
    | Detach

  function Step(p: Plugin, e: Event): Plugin
  {
    match e
    case Listen(c, k) => OnListen(p, c, k)
    case Cancel(c) => OnCancel(p, c)
    case Changed(s, v) => Deliver(p, s, v)
    case Detach => StopAll(p)
  }

  /** The events processed one after the other, oldest first. */
  function Run(p: Plugin, es: seq<Event>): Plugin
    decreases |es|
  {
    if es == [] then p else Run(Step(p, es[0]), es[1..])
  }

  // ---------------------------------------------------------------------
  // Properties

  /** Starting, stopping and cancelling are idempotent. */
  lemma Idempotent(p: Plugin, c: Channel)
    ensures Start(Start(p, c), c) == Start(p, c)
    ensures Stop(Stop(p, c), c) == Stop(p, c)
    ensures OnCancel(OnCancel(p, c), c) == OnCancel(p, c)
  {
  }

  /** Stopping an individual stream unregisters its sensor even while the
      motion stream, which shares the registration, still listens. */
  lemma StopSensorIgnoresMotion(p: Plugin, s: Sensor)
    requires Listening(p, s) && s in p.device && Get(p, Fused).listening
    ensures s !in StopSensor(p, s).registered
    ensures Get(StopSensor(p, s), Fused).listening
  {
  }

  /** A sensor whose own stream still listens stays registered when the
      motion stream stops. */
  lemma StopMotionKeepsIndividualStreams(p: Plugin)
    requires Good(p)
    ensures forall s :: Listening(p, s) ==> s in StopMotion(p).registered && Listening(StopMotion(p), s)
  {
  }

  /** Each transition keeps the invariant. */
  lemma StepKeepsGood(p: Plugin, e: Event)
    requires Good(p)
    ensures Good(Step(p, e))
  {
    if e.Detach? {
      DetachUnregistersAll(p);
    }
  }

  /** Detaching from the engine stops every stream and leaves the plugin's
      listener registered for no sensor; sinks and streamActive flags stay. */
  lemma DetachUnregistersAll(p: Plugin)
    requires Good(p)
    ensures StopAll(p).registered == {}
    ensures forall c :: !Get(StopAll(p), c).listening
    ensures forall c :: Get(StopAll(p), c).active == Get(p, c).active && Get(StopAll(p), c).sink == Get(p, c).sink
    ensures Good(StopAll(p))
  {
    var q1 := StopSensor(p, Accelerometer);
    StopSensorKeepsCovered(p, Accelerometer);
    var q2 := StopSensor(q1, Gyroscope);
    StopSensorKeepsCovered(q1, Gyroscope);
    var q3 := StopSensor(q2, Magnetometer);
    StopSensorKeepsCovered(q2, Magnetometer);
    assert forall s :: !Listening(q3, s);
    assert Get(q3, Fused) == Get(p, Fused);
    var r := StopMotion(q3);
    assert r == StopAll(p);
    assert forall s :: s !in r.registered;
  }

  /** The sensors the plugin's listener is registered for exist, and each of
      them is listened to by its own stream or by the motion stream. */
  ghost predicate Covered(p: Plugin)
  {
    && p.registered <= p.device
    && (forall s :: s in p.registered ==> Listening(p, s) || Get(p, Fused).listening)
  }

  lemma StopSensorKeepsCovered(p: Plugin, s: Sensor)
    requires Covered(p)
    ensures Covered(StopSensor(p, s))
  {
  }

  /** Any sequence of events keeps the invariant, and no cached reading is
      ever discarded: stopping or cancelling a stream leaves the caches as
      they are. */
  lemma {:induction false} RunKeepsGood(p: Plugin, es: seq<Event>)
    requires Good(p)
    ensures Good(Run(p, es))
    ensures Run(p, es).device == p.device
    ensures p.last.Keys <= Run(p, es).last.Keys
    decreases |es|
  {
    if es != [] {
      StepKeepsGood(p, es[0]);
      RunKeepsGood(Step(p, es[0]), es[1..]);
    }
  }

  /** A sensor that never reported has no cached reading, so every motion
      record sent during the run holds null for it. */
  lemma {:induction false} NeverSeenStaysNull(p: Plugin, es: seq<Event>, s: Sensor)
    requires s !in p.last
    requires forall e :: e in p.out && e.Motion? ==> Entry(e.record, s) == None
    requires forall i :: 0 <= i < |es| ==> !(es[i].Changed? && es[i].sensor == s)
    ensures s !in Run(p, es).last
    ensures forall e :: e in Run(p, es).out && e.Motion? ==> Entry(e.record, s) == None
    decreases |es|
  {
    if es != [] {
      var q := Step(p, es[0]);
      assert s !in q.last;
      assert forall e :: e in q.out && e.Motion? ==> Entry(e.record, s) == None by {
        forall e | e in q.out && e.Motion?
          ensures Entry(e.record, s) == None
        {
          if e !in p.out {
            NewMotionIsSnapshot(p, es[0], e);
          }
        }
      }
      NeverSeenStaysNull(q, es[1..], s);
    }
  }

  /** A motion record a single step adds is the snapshot of the caches after it. */
  lemma NewMotionIsSnapshot(p: Plugin, e: Event, m: Emission)
    requires m in Step(p, e).out && m !in p.out && m.Motion?
    ensures m.record == Snapshot(Step(p, e).last)
  {
  }
}
