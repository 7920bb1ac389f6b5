/** The Android plugin's method calls. Availability and the unavailable-sensor
    errors are answered at once; a one-shot read registers a temporary
    listener for one sensor; getAllMotionSensorData registers one listener for
    every existing sensor, counts the events it receives and replies when the
    count reaches the number of existing sensors or when its two-second timer
    fires first. The timer is an explicit event, and a callback reaches a
    temporary listener only while that listener is registered for the sensor. */
module AndroidCalls {
  import opened Sensors

  /** A method call in progress, or answered at once. `registered` says
      whether the call's temporary listener is still registered; the replies
      list holds everything sent to the call's result object. */
  datatype Request =
    | Answered(reply: Reply)
    | OneShot(sensor: Sensor, registered: bool, replies: seq<Reply>)
    | Gather(device: set<Sensor>, total: nat, completed: nat, data: map<Sensor, Reading>,
             registered: bool, timerPending: bool, replies: seq<Reply>)

  /** What a pending call can observe: a reading from a sensor, or its timer firing. */
  datatype Event = Delivered(sensor: Sensor, reading: Reading) | Timeout

  /** Everything sent to the call's result object so far. */
  function Replies(q: Request): seq<Reply>
  {
    if q.Answered? then [q.reply] else q.replies
  }

  /** isMotionSensorAvailable: whether any of the three sensors exists. */
  function Available(device: set<Sensor>): (b: bool)
    ensures b <==> device != {}
  {
    var any := Accelerometer in device || Gyroscope in device || Magnetometer in device;
    assert device != {} ==> any by {
      if device != {} {
        var s :| s in device;
        assert s.Accelerometer? || s.Gyroscope? || s.Magnetometer?;
      }
    }
    any
  }

  /** onMethodCall: what the call does before any sensor reports. */
  function Handle(device: set<Sensor>, call: Call): (q: Request)
    ensures Sound(q)
    ensures call.IsMotionSensorAvailable? ==> q == Answered(Success(Flag(device != {})))
    ensures call.GetData? && call.sensor !in device ==> q == Answered(Error("UNAVAILABLE"))
    ensures call.GetData? && call.sensor in device ==>
              q.OneShot? && q.sensor == call.sensor && q.registered && Replies(q) == []
    ensures call.GetAllData? && device == {} ==> q == Answered(Success(Record(NoData)))
    ensures call.GetAllData? && device != {} ==>
              && q.Gather? && q.device == device && q.completed == 0 && q.data == map[]
              && q.registered && Replies(q) == []
    ensures call.Unknown? ==> q == Answered(NotImplemented)
  {
    match call
    case IsMotionSensorAvailable => Answered(Success(Flag(Available(device))))
    case GetData(s) =>
      if s !in device then Answered(Error("UNAVAILABLE")) else OneShot(s, true, [])
    case GetAllData =>
      if |device| == 0 then Answered(Success(Record(NoData)))
      else Gather(device, |device|, 0, map[], true, true, [])
    case Unknown(_) => Answered(NotImplemented)
  }

  /** The reply getAllMotionSensorData sends: whatever readings it holds, null for the rest. */
  function Collected(data: map<Sensor, Reading>): Reply
  {
    Success(Record(Snapshot(data)))
  }

  /** One event applied to a pending call. A one-shot read's listener
      answers with its sensor's first reading and unregisters; its timer only
      unregisters. getAllMotionSensorData's listener stores each reading and
      counts it, and answers and unregisters when the count reaches the
      number of existing sensors; its timer unregisters and answers unless
      the count was reached. */
  function Step(q: Request, e: Event): (r: Request)
    ensures |Replies(q)| <= |Replies(r)| <= |Replies(q)| + 1
    ensures Replies(r)[..|Replies(q)|] == Replies(q)
    ensures q.Answered? ==> r == q
    ensures q.OneShot? ==> r.OneShot? && r.sensor == q.sensor
    ensures q.OneShot? && e.Timeout? ==> !r.registered && Replies(r) == Replies(q)
    ensures q.OneShot? && e.Delivered? && q.registered && e.sensor == q.sensor ==>
              !r.registered && Replies(r) == Replies(q) + [Success(Axes(e.reading))]
    ensures q.OneShot? && e.Delivered? && !(q.registered && e.sensor == q.sensor) ==> r == q
    ensures q.Gather? ==> r.Gather? && r.device == q.device && r.total == q.total
    ensures q.Gather? && e.Timeout? && !q.timerPending ==> r == q
    ensures q.Gather? && e.Timeout? && q.timerPending ==>
              && !r.timerPending && !r.registered && r.data == q.data
              && (q.completed < q.total ==> Replies(r) == Replies(q) + [Collected(q.data)])
              && (q.completed >= q.total ==> Replies(r) == Replies(q))
    ensures q.Gather? && e.Delivered? && !(q.registered && e.sensor in q.device) ==> r == q
    ensures q.Gather? && e.Delivered? && q.registered && e.sensor in q.device ==>
              && r.completed == q.completed + 1
              && r.data == q.data[e.sensor := e.reading]
              && (r.registered <==> r.completed < q.total)
              && (r.completed >= q.total ==> Replies(r) == Replies(q) + [Collected(r.data)])
              && (r.completed < q.total ==> Replies(r) == Replies(q))
  {
    match q
    case Answered(_) => q
    case OneShot(s, registered, replies) =>
      (match e
       case Timeout => OneShot(s, false, replies)
       case Delivered(t, v) =>
         if registered && t == s then OneShot(s, false, replies + [Success(Axes(v))]) else q)
    case Gather(device, total, completed, data, registered, timerPending, replies) =>
      (match e
       case Timeout =>
         if !timerPending then q
         else if completed < total then Gather(device, total, completed, data, false, false, replies + [Collected(data)])
         else Gather(device, total, completed, data, false, false, replies)
       case Delivered(t, v) =>
         if !registered || t !in device then q
         else if completed + 1 >= total then
           Gather(device, total, completed + 1, data[t := v], false, timerPending, replies + [Collected(data[t := v])])
         else Gather(device, total, completed + 1, data[t := v], registered, timerPending, replies))
  }

  /** The events processed one after the other, oldest first. */
  function Run(q: Request, es: seq<Event>): Request
    decreases |es|
  {
    if es == [] then q else Run(Step(q, es[0]), es[1..])
  }

  /** The invariant of a call in progress: at most one reply, and none while
      the temporary listener is registered. For getAllMotionSensorData also:
      `total` counts the existing sensors; readings come only from existing
      sensors; the listener is registered exactly until the reply, which
      carries the readings collected; the timer is pending while registered,
      and a timer still pending after the reply means the count was reached. */
  ghost predicate Sound(q: Request)
  {
    match q
    case Answered(_) => true
    case OneShot(s, registered, replies) =>
      && |replies| <= 1
      && (registered ==> replies == [])
      && (forall r :: r in replies ==> r.Success? && r.value.Axes?)
    case Gather(device, total, completed, data, registered, timerPending, replies) =>
      && total == |device|
      && data.Keys <= device
      && (registered ==> timerPending && completed < total && replies == [])
      && (!registered ==> replies == [Collected(data)])
      && (!registered && timerPending ==> completed >= total)
  }

  // ---------------------------------------------------------------------
  // Properties

  lemma StepKeepsSound(q: Request, e: Event)
    requires Sound(q)
    ensures Sound(Step(q, e))
  {
  }

  /** Any sequence of events keeps the invariant, and a reply once sent is
      never withdrawn: the replies only grow. */
  lemma {:induction false} RunKeepsSound(q: Request, es: seq<Event>)
    requires Sound(q)
    ensures Sound(Run(q, es))
    ensures |Replies(q)| <= |Replies(Run(q, es))| && Replies(Run(q, es))[..|Replies(q)|] == Replies(q)
    decreases |es|
  {
    if es != [] {
      var q1 := Step(q, es[0]);
      StepKeepsSound(q, es[0]);
      assert |Replies(q)| <= |Replies(q1)| && Replies(q1)[..|Replies(q)|] == Replies(q);
      RunKeepsSound(q1, es[1..]);
      var r := Replies(Run(q, es));
      assert r[..|Replies(q)|] == r[..|Replies(q1)|][..|Replies(q)|];
    }
  }

  /** Every method call replies at most once, whatever the sensors and the
      timer do, and the only error ever sent is UNAVAILABLE, for a one-shot
      read of a sensor the device lacks. */
  lemma AtMostOneReply(device: set<Sensor>, call: Call, es: seq<Event>)
    ensures |Replies(Run(Handle(device, call), es))| <= 1
    ensures forall r :: r in Replies(Run(Handle(device, call), es)) && r.Error? ==>
              r == Error("UNAVAILABLE") && call.GetData? && call.sensor !in device
  {
    var q := Handle(device, call);
    RunKeepsSound(q, es);
    if q.Answered? {
      assert Replies(Run(q, es)) == [q.reply];
    } else if q.Gather? {
      GatherStaysGather(q, es);
    } else {
      OneShotStaysOneShot(q, es);
    }
  }

  lemma {:induction false} OneShotStaysOneShot(q: Request, es: seq<Event>)
    requires q.OneShot?
    ensures Run(q, es).OneShot?
    decreases |es|
  {
    if es != [] {
      OneShotStaysOneShot(Step(q, es[0]), es[1..]);
    }
  }

  /** Once its timer has fired, a getAllMotionSensorData call that waits for
      readings stays finished: it keeps its one reply. */
  lemma {:induction false} GatherFinishedStays(q: Request, es: seq<Event>)
    requires q.Gather? && !q.timerPending && Sound(q)
    ensures Run(q, es) == q
    decreases |es|
  {
    if es != [] {
      GatherFinishedStays(Step(q, es[0]), es[1..]);
    }
  }

  /** getAllMotionSensorData replies exactly once when its timer fires,
      whether the count was reached before or not. */
  lemma {:induction false} GatherRepliesByTimeout(q: Request, es: seq<Event>)
    requires q.Gather? && Sound(q)
    requires Timeout in es
    ensures |Replies(Run(q, es))| == 1
    decreases |es|
  {
    StepKeepsSound(q, es[0]);
    if es[0] == Timeout {
      if q.timerPending {
        GatherFinishedStays(Step(q, es[0]), es[1..]);
      } else {
        GatherFinishedStays(q, es);
      }
    } else {
      assert Timeout in es[1..];
      GatherRepliesByTimeout(Step(q, es[0]), es[1..]);
    }
  }

  /** The reply of getAllMotionSensorData is null for every sensor the device
      lacks. */
  lemma GatherNullForMissing(device: set<Sensor>, es: seq<Event>, s: Sensor)
    requires s !in device
    ensures forall r :: r in Replies(Run(Handle(device, GetAllData), es)) ==> r.Success? && r.value.Record? && Entry(r.value.record, s) == None
  {
    var q := Handle(device, GetAllData);
    RunKeepsSound(q, es);
    if q.Gather? {
      GatherStaysGather(q, es);
    }
  }

  lemma {:induction false} GatherStaysGather(q: Request, es: seq<Event>)
    requires q.Gather?
    ensures Run(q, es).Gather? && Run(q, es).device == q.device
    decreases |es|
  {
    if es != [] {
      GatherStaysGather(Step(q, es[0]), es[1..]);
    }
  }

  /** The counter counts events, not distinct sensors: with an accelerometer
      and a gyroscope, two accelerometer readings complete the call, and the
      reply holds null for the gyroscope although the device has one. */
  lemma CounterCountsEvents(a: Reading, b: Reading)
    ensures Replies(Run(Handle({Accelerometer, Gyroscope}, GetAllData),
                        [Delivered(Accelerometer, a), Delivered(Accelerometer, b)]))
            == [Success(Record(Combined(Some(b), None, None)))]
  {
    var device := {Accelerometer, Gyroscope};
    assert |device| == 2;
    var q0 := Handle(device, GetAllData);
    var q1 := Step(q0, Delivered(Accelerometer, a));
    var q2 := Step(q1, Delivered(Accelerometer, b));
    assert q2.replies == [Collected(map[Accelerometer := b])];
    assert Run(q0, [Delivered(Accelerometer, a), Delivered(Accelerometer, b)]) == Run(q1, [Delivered(Accelerometer, b)]);
    assert Run(q1, [Delivered(Accelerometer, b)]) == Run(q2, []);
  }

  /** A one-shot read whose timer fires before any reading never replies:
      the timer only unregisters the listener. */
  lemma {:induction false} OneShotTimeoutNeverReplies(s: Sensor, es: seq<Event>)
    ensures Replies(Run(Step(OneShot(s, true, []), Timeout), es)) == []
  {
    UnregisteredOneShotStays(Step(OneShot(s, true, []), Timeout), es);
  }

  lemma {:induction false} UnregisteredOneShotStays(q: Request, es: seq<Event>)
    requires q.OneShot? && !q.registered
    ensures Run(q, es) == q
    decreases |es|
  {
    if es != [] {
      UnregisteredOneShotStays(Step(q, es[0]), es[1..]);
    }
  }

  /** A one-shot read answers with the first reading of its sensor that
      arrives while it is registered, and with nothing else afterwards. */
  lemma OneShotFirstReadingWins(s: Sensor, v: Reading, es: seq<Event>)
    ensures Replies(Run(OneShot(s, true, []), [Delivered(s, v)] + es)) == [Success(Axes(v))]
  {
    var q := OneShot(s, true, []);
    assert ([Delivered(s, v)] + es)[1..] == es;
    UnregisteredOneShotStays(Step(q, Delivered(s, v)), es);
  }

  /** A getAllMotionSensorData call holds no reading for a sensor that never
      reports, and every answer it sends holds null for it. */
  lemma {:induction false} GatherUnreportedStaysNull(q: Request, es: seq<Event>, s: Sensor)
    requires q.Gather? && s !in q.data
    requires forall r :: r in Replies(q) ==> r.Success? && r.value.Record? && Entry(r.value.record, s) == None
    requires forall i :: 0 <= i < |es| ==> !(es[i].Delivered? && es[i].sensor == s)
    ensures Run(q, es).Gather? && s !in Run(q, es).data
    ensures forall r :: r in Replies(Run(q, es)) ==> r.Success? && r.value.Record? && Entry(r.value.record, s) == None
    decreases |es|
  {
    if es != [] {
      var q1 := Step(q, es[0]);
      assert forall r :: r in Replies(q1) ==> r.Success? && r.value.Record? && Entry(r.value.record, s) == None by {
        forall r | r in Replies(q1)
          ensures r.Success? && r.value.Record? && Entry(r.value.record, s) == None
        {
          var i :| 0 <= i < |Replies(q1)| && Replies(q1)[i] == r;
          if i < |Replies(q)| {
            assert r == Replies(q)[i];
          }
        }
      }
      GatherUnreportedStaysNull(q1, es[1..], s);
    }
  }

  /** The answer of getAllMotionSensorData is null for every sensor that is
      missing or never reports. */
  lemma GatherNoReadingNull(device: set<Sensor>, es: seq<Event>, s: Sensor)
    requires forall i :: 0 <= i < |es| ==> !(es[i].Delivered? && es[i].sensor == s)
    ensures forall r :: r in Replies(Run(Handle(device, GetAllData), es)) ==>
              r.Success? && r.value.Record? && Entry(r.value.record, s) == None
  {
    var q := Handle(device, GetAllData);
    if q.Gather? {
      GatherUnreportedStaysNull(q, es, s);
    } else {
      RunKeepsSound(q, es);
      assert Replies(Run(q, es)) == [Success(Record(NoData))];
    }
  }
}
