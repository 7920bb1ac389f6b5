/** The iOS plugin's method calls. A one-shot read keeps the call's result
    in a captured slot that the first callback empties, so whatever further
    callbacks arrive (ones queued before the handler stopped its updates),
    the call is answered once. getAllMotionSensorData reads device motion
    the same way when it is available; otherwise it starts one read per
    available sensor inside a dispatch group and answers when the group's
    count of reads that have not yet left falls to zero. Every callback of a
    started read leaves the group, so a read that calls back twice can empty
    the group before another read has called back at all. */
module IosCalls {
  import opened Sensors
  import IosStreams

  /** A method call in progress, or answered at once. A `Capture` is a
      one-shot read of one source: `captured` says whether the result slot
      still holds the result, `updating` whether the source's updates run.
      A `Group` is the fallback aggregate read: the reads `started`, the
      group's `count` (enters not yet matched by a leave), the readings
      collected, the result slot, and whether a leave found the count at
      zero already, which the dispatch group does not allow. */
  datatype Request =
    | Answered(reply: Reply)
    | Capture(source: Channel, captured: bool, updating: bool, replies: seq<Reply>)
    | Group(started: set<Sensor>, count: nat, data: map<Sensor, Reading>,
            captured: bool, unbalanced: bool, replies: seq<Reply>)

  /** A Core Motion callback: of one sensor's updates, or of device motion. */
  datatype Event =
    | SensorCallback(sensor: Sensor, data: Option<Reading>)
    | MotionCallback(motion: Option<IosStreams.DeviceMotion>)

  /** Everything sent to the call's result so far. */
  function Replies(q: Request): seq<Reply>
  {
    if q.Answered? then [q.reply] else q.replies
  }

  /** isMotionSensorAvailable: device motion or any of the three sensors. */
  function Available(d: IosStreams.Device): (b: bool)
    ensures b <==> d.deviceMotion || d.sensors != {}
  {
    var any := d.deviceMotion || Accelerometer in d.sensors || Gyroscope in d.sensors || Magnetometer in d.sensors;
    assert d.sensors != {} ==> any by {
      if d.sensors != {} {
        var s :| s in d.sensors;
        assert s.Accelerometer? || s.Gyroscope? || s.Magnetometer?;
      }
    }
    any
  }

  /** The fallback aggregate read as it stands right after it is started:
      one enter per available sensor; with none, the group is empty and the
      answer, every entry null, goes out at once. */
  function StartGroup(sensors: set<Sensor>): Request
  {
    if sensors == {} then Group({}, 0, map[], false, false, [Success(Record(NoData))])
    else Group(sensors, |sensors|, map[], true, false, [])
  }

  /** handle: what the call does before any callback. */
  function Handle(d: IosStreams.Device, call: Call): (q: Request)
    ensures Sound(q)
    ensures call.IsMotionSensorAvailable? ==> q == Answered(Success(Flag(d.deviceMotion || d.sensors != {})))
    ensures call.GetData? && call.sensor !in d.sensors ==> q == Answered(Error("UNAVAILABLE"))
    ensures call.GetData? && call.sensor in d.sensors ==>
              q.Capture? && q.source == Single(call.sensor) && q.captured && q.updating && Replies(q) == []
    ensures call.GetAllData? && d.deviceMotion ==> q.Capture? && q.source == Fused && q.captured && Replies(q) == []
    ensures call.GetAllData? && !d.deviceMotion ==>
              q.Group? && q.started == d.sensors && q.count == |d.sensors| && q.data == map[] && !q.unbalanced
    ensures call.GetAllData? && !d.deviceMotion ==> (Replies(q) == [Success(Record(NoData))] <==> d.sensors == {})
    ensures call.Unknown? ==> q == Answered(NotImplemented)
  {
    match call
    case IsMotionSensorAvailable => Answered(Success(Flag(Available(d))))
    case GetData(s) =>
      if s in d.sensors then Capture(Single(s), true, true, []) else Answered(Error("UNAVAILABLE"))
    case GetAllData =>
      if d.deviceMotion then Capture(Fused, true, true, []) else StartGroup(d.sensors)
    case Unknown(_) => Answered(NotImplemented)
  }

  /** Whether a callback belongs to the handler of a source. */
  predicate Delivers(source: Channel, e: Event)
  {
    match e
    case SensorCallback(t, _) => source == Single(t)
    case MotionCallback(_) => source == Fused
  }

  /** The value a callback carries, None when it brings no data. */
  function Data(e: Event): Option<Value>
  {
    match e
    case SensorCallback(_, d) => if d.Some? then Some(Axes(d.value)) else None
    case MotionCallback(m) => if m.Some? then Some(Record(IosStreams.MotionRecord(m.value))) else None
  }

  /** What the first callback of a one-shot read answers: its data, or the
      ERROR code when it has none. */
  function Outcome(e: Event): Reply
  {
    if Data(e).Some? then Success(Data(e).value) else Error("ERROR")
  }

  /** One callback applied to a pending call. A one-shot read answers at
      its first callback and stops its updates. In the fallback read, a
      callback of a started read stores its data, if any, and leaves the
      group; the leave that brings the count to zero runs the notify block,
      which answers with the readings held at that moment. */
  function Step(q: Request, e: Event): (r: Request)
    ensures |Replies(q)| <= |Replies(r)| <= |Replies(q)| + 1
    ensures Replies(r)[..|Replies(q)|] == Replies(q)
    ensures q.Answered? ==> r == q
    ensures q.Capture? ==> r.Capture? && r.source == q.source
    ensures q.Capture? && !Delivers(q.source, e) ==> r == q
    ensures q.Capture? && Delivers(q.source, e) ==>
              && !r.captured && !r.updating
              && (q.captured ==> Replies(r) == Replies(q) + [Outcome(e)])
              && (!q.captured ==> Replies(r) == Replies(q))
    ensures q.Group? ==> r.Group? && r.started == q.started
    ensures q.Group? && !(e.SensorCallback? && e.sensor in q.started) ==> r == q
    ensures q.Group? && e.SensorCallback? && e.sensor in q.started ==>
              && r.data == (if e.data.Some? then q.data[e.sensor := e.data.value] else q.data)
              && r.count == (if q.count == 0 then 0 else q.count - 1)
              && (r.unbalanced <==> q.unbalanced || q.count == 0)
              && (q.count == 1 && q.captured ==> !r.captured && Replies(r) == Replies(q) + [Success(Record(Snapshot(r.data)))])
              && (!(q.count == 1 && q.captured) ==> Replies(r) == Replies(q))
  {
    match q
    case Answered(_) => q
    case Capture(source, captured, updating, replies) =>
      if !Delivers(source, e) then q
      else if captured then Capture(source, false, false, replies + [Outcome(e)])
      else Capture(source, false, false, replies)
    case Group(started, count, data, captured, unbalanced, replies) =>
      (match e
       case MotionCallback(_) => q
       case SensorCallback(t, d) =>
         if t !in started then q
         else
           var data' := if d.Some? then data[t := d.value] else data;
           if count == 0 then Group(started, 0, data', captured, true, replies)
           else if count == 1 && captured then
             Group(started, 0, data', false, unbalanced, replies + [Success(Record(Snapshot(data')))])
           else Group(started, count - 1, data', captured, unbalanced, replies))
  }

  /** The callbacks processed one after the other, oldest first. */
  function Run(q: Request, es: seq<Event>): Request
    decreases |es|
  {
    if es == [] then q else Run(Step(q, es[0]), es[1..])
  }

  /** The invariant of a call in progress. A one-shot read: the slot is full
      exactly until the single reply, updates run exactly while it is full,
      an error reply is ERROR, and a device-motion answer has no
      magnetometer entry. The fallback read: readings come only from started
      reads, the count never exceeds the reads started, the slot is full
      exactly while the count is positive, no leave has found the count at
      zero while it is positive, and once the count is zero there is exactly
      one reply, a record that is null for every sensor not started. */
  ghost predicate Sound(q: Request)
  {
    match q
    case Answered(_) => true
    case Capture(source, captured, updating, replies) =>
      && |replies| <= 1
      && (captured <==> replies == [])
      && updating == captured
      && (forall r :: r in replies && !r.Success? ==> r == Error("ERROR"))
      && (forall r :: r in replies && r.Success? ==> (r.value.Axes? <==> source.Single?))
      && (source.Fused? ==> forall r :: r in replies && r.Success? ==> r.value.Record? && r.value.record.magnetometer == None)
    case Group(started, count, data, captured, unbalanced, replies) =>
      && data.Keys <= started
      && count <= |started|
      && (captured <==> count > 0)
      && (count > 0 ==> replies == [] && !unbalanced)
      && (count == 0 ==> |replies| == 1 && replies[0].Success? && replies[0].value.Record?)
      && (count == 0 ==> forall s :: s !in started ==> Entry(replies[0].value.record, s) == None)
  }

  /** How many callbacks in a sequence come from a read of one of the given
      sensors: each of them is one leave of the fallback read's group. */
  function Leaves(started: set<Sensor>, es: seq<Event>): nat
    decreases |es|
  {
    if es == [] then 0
    else (if es[0].SensorCallback? && es[0].sensor in started then 1 else 0) + Leaves(started, es[1..])
  }

  // ---------------------------------------------------------------------
  // Properties

  lemma StepKeepsSound(q: Request, e: Event)
    requires Sound(q)
    ensures Sound(Step(q, e))
  {
  }

  /** Any sequence of callbacks keeps the invariant, and no callback changes
      the kind of a call: an answered call stays as it is, a one-shot read
      stays a read of the same source, the fallback read stays a group. */
  lemma {:induction false} RunKeepsSound(q: Request, es: seq<Event>)
    requires Sound(q)
    ensures Sound(Run(q, es))
    ensures q.Answered? ==> Run(q, es) == q
    ensures q.Capture? ==> Run(q, es).Capture? && Run(q, es).source == q.source
    ensures q.Group? ==> Run(q, es).Group? && Run(q, es).started == q.started
    decreases |es|
  {
    if es != [] {
      StepKeepsSound(q, es[0]);
      RunKeepsSound(Step(q, es[0]), es[1..]);
    }
  }

  /** Every method call replies at most once, whatever callbacks arrive; an
      error is UNAVAILABLE when the call is refused at once, ERROR when a
      one-shot read's callback brings no data, and the fallback read never
      fails. */
  lemma AtMostOneReply(d: IosStreams.Device, call: Call, es: seq<Event>)
    ensures |Replies(Run(Handle(d, call), es))| <= 1
    ensures forall r :: r in Replies(Run(Handle(d, call), es)) && r.Error? ==>
              (r == Error("UNAVAILABLE") && call.GetData? && call.sensor !in d.sensors)
              || (r == Error("ERROR") && ((call.GetData? && call.sensor in d.sensors) || (call.GetAllData? && d.deviceMotion)))
  {
    RunKeepsSound(Handle(d, call), es);
  }

  /** A one-shot read whose slot is empty ignores every later callback. */
  lemma {:induction false} EmptySlotStays(q: Request, es: seq<Event>)
    requires q.Capture? && !q.captured && !q.updating
    ensures Run(q, es) == q
    decreases |es|
  {
    if es != [] {
      EmptySlotStays(Step(q, es[0]), es[1..]);
    }
  }

  /** The first callback of a one-shot read decides its one answer; later
      callbacks change nothing, and the read's updates are stopped. */
  lemma FirstCallbackDecides(q: Request, e: Event, es: seq<Event>)
    requires q.Capture? && q.captured && q.replies == []
    requires Delivers(q.source, e)
    ensures Replies(Run(q, [e] + es)) == [Outcome(e)]
    ensures Run(q, [e] + es).Capture? && !Run(q, [e] + es).updating
  {
    assert ([e] + es)[1..] == es;
    EmptySlotStays(Step(q, e), es);
  }

  /** The answer to getAllMotionSensorData on the device-motion path never
      carries a magnetometer reading. */
  lemma DeviceMotionAnswerHasNoMagnetometer(d: IosStreams.Device, es: seq<Event>)
    requires d.deviceMotion
    ensures forall r :: r in Replies(Run(Handle(d, GetAllData), es)) && r.Success? ==>
              r.value.Record? && r.value.record.magnetometer == None
  {
    var q := Handle(d, GetAllData);
    RunKeepsSound(q, es);
  }

  /** In the fallback read, every callback of a started read is one leave:
      the count falls by the number of such callbacks, stopping at zero, and
      a leave is unbalanced exactly when there are more leaves than the
      count. */
  lemma {:induction false} GroupCount(q: Request, es: seq<Event>)
    requires q.Group?
    ensures Run(q, es).Group? && Run(q, es).started == q.started
    ensures Run(q, es).count == if Leaves(q.started, es) <= q.count then q.count - Leaves(q.started, es) else 0
    ensures Run(q, es).unbalanced <==> q.unbalanced || Leaves(q.started, es) > q.count
    decreases |es|
  {
    if es != [] {
      GroupCount(Step(q, es[0]), es[1..]);
    }
  }

  /** The fallback read answers, once, exactly when it has had as many
      callbacks of started reads as reads were started, whichever reads they
      came from; every unavailable sensor is null in the answer. */
  lemma FallbackRepliesOnceAllLeft(d: IosStreams.Device, es: seq<Event>)
    requires !d.deviceMotion
    ensures |Replies(Run(Handle(d, GetAllData), es))| == 1 <==> Leaves(d.sensors, es) >= |d.sensors|
    ensures |Replies(Run(Handle(d, GetAllData), es))| == 0 <==> Leaves(d.sensors, es) < |d.sensors|
    ensures forall r, s :: r in Replies(Run(Handle(d, GetAllData), es)) && s !in d.sensors ==>
              r.Success? && r.value.Record? && Entry(r.value.record, s) == None
  {
    var q := Handle(d, GetAllData);
    RunKeepsSound(q, es);
    GroupCount(q, es);
    var r := Run(q, es);
    assert r.count == 0 <==> Leaves(d.sensors, es) >= |d.sensors|;
  }

  /** A read that calls back twice empties the group early: with an
      accelerometer and a gyroscope, two accelerometer callbacks answer the
      call with the later reading and null for the available gyroscope; the
      gyroscope's own callback is then the leave that finds the count at
      zero. */
  lemma RepeatedCallbackAnswersEarly(v: Reading, w: Reading, g: Reading)
    ensures Replies(Run(StartGroup({Accelerometer, Gyroscope}),
                        [SensorCallback(Accelerometer, Some(v)), SensorCallback(Accelerometer, Some(w))]))
            == [Success(Record(Combined(Some(w), None, None)))]
    ensures var r := Run(StartGroup({Accelerometer, Gyroscope}),
                         [SensorCallback(Accelerometer, Some(v)), SensorCallback(Accelerometer, Some(w))]);
            r.Group? && r.count == 0 && !r.unbalanced
    ensures var r := Run(StartGroup({Accelerometer, Gyroscope}),
                         [SensorCallback(Accelerometer, Some(v)), SensorCallback(Accelerometer, Some(w)),
                          SensorCallback(Gyroscope, Some(g))]);
            r.Group? && r.unbalanced && |r.replies| == 1
  {
    var q0 := StartGroup({Accelerometer, Gyroscope});
    assert |{Accelerometer, Gyroscope}| == 2;
    var e1 := SensorCallback(Accelerometer, Some(v));
    var e2 := SensorCallback(Accelerometer, Some(w));
    var e3 := SensorCallback(Gyroscope, Some(g));
    var q1 := Step(q0, e1);
    var q2 := Step(q1, e2);
    var q3 := Step(q2, e3);
    assert q1.count == 1 && q1.captured;
    assert q2.data == map[Accelerometer := w];
    assert Snapshot(q2.data) == Combined(Some(w), None, None);
    assert Run(q0, [e1, e2]) == Run(q1, [e2]);
    assert Run(q1, [e2]) == Run(q2, []);
    assert Run(q0, [e1, e2, e3]) == Run(q1, [e2, e3]);
    assert Run(q1, [e2, e3]) == Run(q2, [e3]);
    assert Run(q2, [e3]) == Run(q3, []);
  }

  /** In the fallback read, a sensor none of whose callbacks brings data has
      no reading, and every answer holds null for it. */
  lemma {:induction false} GroupNoDataStaysNull(q: Request, es: seq<Event>, s: Sensor)
    requires q.Group? && s !in q.data
    requires forall r :: r in Replies(q) ==> r.Success? && r.value.Record? && Entry(r.value.record, s) == None
    requires forall i :: 0 <= i < |es| ==> !(es[i].SensorCallback? && es[i].sensor == s && es[i].data.Some?)
    ensures Run(q, es).Group? && s !in Run(q, es).data
    ensures forall r :: r in Replies(Run(q, es)) ==> r.Success? && r.value.Record? && Entry(r.value.record, s) == None
    decreases |es|
  {
    if es != [] {
      var q1 := Step(q, es[0]);
      assert forall r :: r in Replies(q1) ==> r.Success? && r.value.Record? && Entry(r.value.record, s) == None by {
        forall r | r in Replies(q1)
          ensures r.Success? && r.value.Record? && Entry(r.value.record, s) == None
        {
          var i :| 0 <= i < |Replies(q1)| && Replies(q1)[i] == r;
          if i < |Replies(q)| {
            assert r == Replies(q)[i];
          }
        }
      }
      GroupNoDataStaysNull(q1, es[1..], s);
    }
  }

  /** The fallback read's answer is null for every sensor that is
      unavailable or none of whose callbacks brought data. */
  lemma FallbackNoDataNull(d: IosStreams.Device, es: seq<Event>, s: Sensor)
    requires !d.deviceMotion
    requires forall i :: 0 <= i < |es| ==> !(es[i].SensorCallback? && es[i].sensor == s && es[i].data.Some?)
    ensures forall r :: r in Replies(Run(Handle(d, GetAllData), es)) ==>
              r.Success? && r.value.Record? && Entry(r.value.record, s) == None
  {
    GroupNoDataStaysNull(Handle(d, GetAllData), es, s);
  }
}
