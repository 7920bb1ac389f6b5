# flutter_motion_sensors: stream lifecycle and reply-once rules

This project is a Dafny model of the logic in the flutter_motion_sensors plugin. The plugin exposes a device's
accelerometer, gyroscope and magnetometer to Flutter. It offers one-shot method calls
(`isMotionSensorAvailable`, `getAccelerometerData`, `getGyroscopeData`,
`getMagnetometerData`, `getAllMotionSensorData`). It also offers four event channels: one per sensor
and one fused "motion" channel. The model covers two platform implementations:

- **Android** (`FlutterMotionSensorsPlugin.kt`). Each channel has a compare-and-set
  listening flag, a `streamActive` flag and an event sink. All four channels share one
  listener registration per sensor. The plugin caches the latest reading of each sensor for
  the motion channel. One-shot reads use temporary listeners and a two-second timer.
  `getAllMotionSensorData` counts events against the number of existing sensors.
- **iOS** (`FlutterMotionSensorsPlugin.swift`). Each channel has a listening flag and a sink,
  guarded by the motion manager's availability flags. One-shot reads keep the call's result
  in a `capturedResult` slot that the first callback empties. The aggregate read uses device
  motion when it can. Otherwise it falls back to one read per available sensor inside a
  dispatch group.

The model is functional. Each platform's plugin is an immutable record holding the flags,
the sinks, the set of registered sensors (Android) or running update sources (iOS), the
caches, and a log of every emission sent to a sink. Each handler is a pure transition, and
`Run` folds a sequence of events over it. A pending method call is its own small state
machine. Its events are sensor callbacks and, on Android, the timer firing. Readings are
opaque integer triples and sinks are opaque identities.

Modules: `Sensors` (shared vocabulary), `AndroidStreams`, `AndroidCalls`, `IosStreams`,
`IosCalls`.

## Model

| member | source | states |
|---|---|---|
| AndroidCalls.Available | android/src/main/kotlin/com/github/dhia_bechattaoui/flutter_motion_sensors/FlutterMotionSensorsPlugin.kt:72-77 | isMotionSensorAvailable is true exactly when the device has at least one of the three sensors |
| AndroidCalls.Handle | android/src/main/kotlin/com/github/dhia_bechattaoui/flutter_motion_sensors/FlutterMotionSensorsPlugin.kt:70-237 | a one-shot read of a missing sensor answers UNAVAILABLE at once; getAllMotionSensorData on a device with no sensor answers at once with all three entries null; otherwise a one-shot read waits for the called sensor, and getAllMotionSensorData waits for every existing sensor with its count at zero and no readings, each with its listener registered; an unknown method answers notImplemented; the call starts in the reply-once invariant |
| AndroidCalls.Step | android/src/main/kotlin/com/github/dhia_bechattaoui/flutter_motion_sensors/FlutterMotionSensorsPlugin.kt:84-234 | one reading or timer firing adds at most one reply and never withdraws one; a one-shot read answers with its sensor's first reading while registered and unregisters, and its timer only unregisters; getAllMotionSensorData stores and counts every reading from an existing sensor while registered, answers with the readings held and unregisters when the count reaches the number of existing sensors, and its timer unregisters and answers with the readings held unless the count was reached |
| AndroidCalls.RunKeepsSound | android/src/main/kotlin/com/github/dhia_bechattaoui/flutter_motion_sensors/FlutterMotionSensorsPlugin.kt:158-234 | across any sequence of readings and timer firings a call keeps: at most one reply; none while its listener is registered; a one-shot read only ever answers with a reading; for getAllMotionSensorData the count total equals the number of existing sensors, readings only from existing sensors, and the reply carries exactly the readings collected; a reply once sent is never withdrawn |
| AndroidCalls.AtMostOneReply | android/src/main/kotlin/com/github/dhia_bechattaoui/flutter_motion_sensors/FlutterMotionSensorsPlugin.kt:78-234 | every method call sends at most one reply, whatever readings and timer events follow, and the only error ever sent is UNAVAILABLE for a one-shot read of a missing sensor |
| AndroidCalls.GatherRepliesByTimeout | android/src/main/kotlin/com/github/dhia_bechattaoui/flutter_motion_sensors/FlutterMotionSensorsPlugin.kt:207-234 | once the timer of getAllMotionSensorData has fired, the call has replied exactly once, whether the count was reached first or not |
| AndroidCalls.GatherFinishedStays | android/src/main/kotlin/com/github/dhia_bechattaoui/flutter_motion_sensors/FlutterMotionSensorsPlugin.kt:224-234 | after the timer has fired and the listener is unregistered, nothing further changes the call |
| AndroidCalls.GatherNullForMissing | android/src/main/kotlin/com/github/dhia_bechattaoui/flutter_motion_sensors/FlutterMotionSensorsPlugin.kt:159-222 | the reply of getAllMotionSensorData is a success whose entry is null for every sensor the device lacks |
| AndroidCalls.GatherUnreportedStaysNull | android/src/main/kotlin/com/github/dhia_bechattaoui/flutter_motion_sensors/FlutterMotionSensorsPlugin.kt:176-233 | while getAllMotionSensorData waits, a sensor that never reports keeps no reading, so the answer, whenever it is sent, holds null for it |
| AndroidCalls.GatherNoReadingNull | android/src/main/kotlin/com/github/dhia_bechattaoui/flutter_motion_sensors/FlutterMotionSensorsPlugin.kt:159-233 | the answer of getAllMotionSensorData is null for every sensor that is missing or never reports |
| AndroidCalls.CounterCountsEvents | android/src/main/kotlin/com/github/dhia_bechattaoui/flutter_motion_sensors/FlutterMotionSensorsPlugin.kt:163-215 | the counter counts events and not distinct sensors: with an accelerometer and a gyroscope, two accelerometer readings complete the call, and the reply holds the later reading and null for the available gyroscope |
| AndroidCalls.OneShotTimeoutNeverReplies | android/src/main/kotlin/com/github/dhia_bechattaoui/flutter_motion_sensors/FlutterMotionSensorsPlugin.kt:99-104 | the timer of a one-shot read only unregisters its listener: if it fires before any reading, the call never replies |
| AndroidCalls.OneShotFirstReadingWins | android/src/main/kotlin/com/github/dhia_bechattaoui/flutter_motion_sensors/FlutterMotionSensorsPlugin.kt:84-96 | a one-shot read replies with the first reading of its sensor and with nothing afterwards |
| AndroidStreams.Attach | android/src/main/kotlin/com/github/dhia_bechattaoui/flutter_motion_sensors/FlutterMotionSensorsPlugin.kt:28-68 | right after attachment the plugin serves the given sensors, every channel is idle (not listening, not active, no sink), no sensor is registered, no cache holds a reading, nothing was emitted, and the lifecycle invariant holds |
| AndroidStreams.StartSensor | android/src/main/kotlin/com/github/dhia_bechattaoui/flutter_motion_sensors/FlutterMotionSensorsPlugin.kt:340-355 | starting an individual stream does nothing if it already listens; for a missing sensor the flag ends false and nothing is registered; otherwise the flag is set and exactly that sensor is added to the registrations; no other channel changes |
| AndroidStreams.StopSensor | android/src/main/kotlin/com/github/dhia_bechattaoui/flutter_motion_sensors/FlutterMotionSensorsPlugin.kt:357-363 | stopping an individual stream does nothing when it does not listen; otherwise it clears the flag and unregisters exactly that sensor; no other channel changes |
| AndroidStreams.StartMotion | android/src/main/kotlin/com/github/dhia_bechattaoui/flutter_motion_sensors/FlutterMotionSensorsPlugin.kt:415-421 | starting the motion stream does nothing if it already listens; otherwise it sets the flag, even on a device without sensors, and registers every existing sensor |
| AndroidStreams.StopMotion | android/src/main/kotlin/com/github/dhia_bechattaoui/flutter_motion_sensors/FlutterMotionSensorsPlugin.kt:423-436 | stopping the motion stream does nothing when it does not listen; otherwise it clears the flag, keeps every sensor whose individual stream listens as it was, and unregisters every other existing sensor |
| AndroidStreams.OnListen | android/src/main/kotlin/com/github/dhia_bechattaoui/flutter_motion_sensors/FlutterMotionSensorsPlugin.kt:446-456 | onListen (same shape at 470-480, 494-504, 518-528): an active stream's old sink gets endOfStream; afterwards the new sink is installed, the channel is active, it listens exactly when it is the motion channel or its sensor exists, and the registrations grow by that sensor, or by every existing sensor for motion; the lifecycle invariant is kept |
| AndroidStreams.OnCancel | android/src/main/kotlin/com/github/dhia_bechattaoui/flutter_motion_sensors/FlutterMotionSensorsPlugin.kt:458-466 | onCancel (same shape at 482-490, 506-514, 530-538): afterwards the channel is inactive; an active channel loses its sink and stops listening; an individual stream unregisters exactly its own sensor when it listened, the motion stream exactly the existing sensors whose own stream does not listen, and no other registration changes; cancelling an inactive channel changes nothing; the lifecycle invariant is kept |
| AndroidStreams.OnSensorChanged | android/src/main/kotlin/com/github/dhia_bechattaoui/flutter_motion_sensors/FlutterMotionSensorsPlugin.kt:249-338 | a reading overwrites that sensor's cache; the sensor's sink, if any, receives it first and once; a motion record is emitted only while the motion stream listens and holds a sink, and it carries the cached reading of every sensor, null for a sensor without one, and it comes last; nothing else is emitted and no flag changes |
| AndroidStreams.Idempotent | android/src/main/kotlin/com/github/dhia_bechattaoui/flutter_motion_sensors/FlutterMotionSensorsPlugin.kt:340-466 | starting twice equals starting once, stopping twice equals stopping once, and a second onCancel changes nothing, for every channel |
| AndroidStreams.StopSensorIgnoresMotion | android/src/main/kotlin/com/github/dhia_bechattaoui/flutter_motion_sensors/FlutterMotionSensorsPlugin.kt:357-363 | stopping an individual stream unregisters its sensor even while the motion stream, which shares the registration, still listens |
| AndroidStreams.StopMotionKeepsIndividualStreams | android/src/main/kotlin/com/github/dhia_bechattaoui/flutter_motion_sensors/FlutterMotionSensorsPlugin.kt:423-436 | in a reachable state, every sensor whose individual stream listens is still registered and listening after the motion stream stops |
| AndroidStreams.DetachUnregistersAll | android/src/main/kotlin/com/github/dhia_bechattaoui/flutter_motion_sensors/FlutterMotionSensorsPlugin.kt:438-443 | stopAllSensors at detachment leaves no sensor registered and no channel listening, while sinks and streamActive flags stay as they were |
| AndroidStreams.RunKeepsGood | android/src/main/kotlin/com/github/dhia_bechattaoui/flutter_motion_sensors/FlutterMotionSensorsPlugin.kt:340-539 | any sequence of onListen, onCancel, readings and detachment keeps the lifecycle invariant (a registered sensor exists and is listened to by its own stream or the motion stream; an individually listening sensor is registered; a listening channel is active; an inactive channel has no sink), and no cached reading is ever discarded |
| AndroidStreams.NeverSeenStaysNull | android/src/main/kotlin/com/github/dhia_bechattaoui/flutter_motion_sensors/FlutterMotionSensorsPlugin.kt:304-337 | over any run in which a sensor never reports, it has no cached reading and every motion record sent holds null for it |
| IosCalls.Available | ios/Classes/FlutterMotionSensorsPlugin.swift:37-41 | isMotionSensorAvailable is true exactly when device motion or any of the three sensors is available |
| IosCalls.Handle | ios/Classes/FlutterMotionSensorsPlugin.swift:35-246 | a one-shot read of an unavailable sensor answers UNAVAILABLE at once and starts no updates; an available one starts updates with a full result slot; getAllMotionSensorData uses device motion when available and otherwise starts one read per available sensor, with a count of one per read and no readings, answering at once, all null, when there are none; an unknown method answers notImplemented |
| IosCalls.Step | ios/Classes/FlutterMotionSensorsPlugin.swift:43-240 | one callback adds at most one reply and never withdraws one; a one-shot read's first callback stops its updates and answers with its data or ERROR, later ones send nothing; in the fallback read every callback of a started read overwrites that sensor's reading when it brings data and leaves the group once; the leave that takes the count from one to zero answers with the readings held at that moment; a leave at zero answers nothing and is marked unbalanced |
| IosCalls.RunKeepsSound | ios/Classes/FlutterMotionSensorsPlugin.swift:43-240 | across any callbacks a call keeps: at most one reply; the result slot is full exactly until it; the fallback read's count never exceeds the reads started, its slot is full exactly while the count is positive, and once the count is zero there is exactly one reply, a record null for every sensor not started; an answered call stays answered and a one-shot read stays a read of the same source |
| IosCalls.AtMostOneReply | ios/Classes/FlutterMotionSensorsPlugin.swift:43-241 | every method call is answered at most once, whatever callbacks arrive, including callbacks queued before the handler stopped its updates; an error is UNAVAILABLE only for a refused one-shot read, and ERROR only for a one-shot read of an available sensor or the device-motion aggregate read (that its callback brought no data is stated by FirstCallbackDecides) |
| IosCalls.EmptySlotStays | ios/Classes/FlutterMotionSensorsPlugin.swift:50-53 | once the result slot is empty, later callbacks of a one-shot read change nothing |
| IosCalls.FirstCallbackDecides | ios/Classes/FlutterMotionSensorsPlugin.swift:46-63 | the first callback of a one-shot read decides its only answer: its data, or ERROR when it brings none; the updates are stopped |
| IosCalls.DeviceMotionAnswerHasNoMagnetometer | ios/Classes/FlutterMotionSensorsPlugin.swift:148-153 | on the device-motion path every successful aggregate answer is a record whose magnetometer entry is null |
| IosCalls.GroupCount | ios/Classes/FlutterMotionSensorsPlugin.swift:164-228 | in the fallback read every callback of a started read is one leave: the count is the reads started minus the callbacks so far, stopping at zero, and a leave is unbalanced exactly when the callbacks outnumber the reads started |
| IosCalls.FallbackRepliesOnceAllLeft | ios/Classes/FlutterMotionSensorsPlugin.swift:159-240 | the fallback read answers exactly once as soon as the callbacks of started reads, counted with repetitions, reach the number of reads started, and not at all before; every unavailable sensor is null in the answer |
| IosCalls.GroupNoDataStaysNull | ios/Classes/FlutterMotionSensorsPlugin.swift:170-240 | in the fallback read, a sensor none of whose callbacks brings data keeps no reading, so the answer holds null for it |
| IosCalls.FallbackNoDataNull | ios/Classes/FlutterMotionSensorsPlugin.swift:159-240 | the fallback answer is null for every sensor that is unavailable or none of whose callbacks brought data |
| IosCalls.RepeatedCallbackAnswersEarly | ios/Classes/FlutterMotionSensorsPlugin.swift:164-240 | with an accelerometer and a gyroscope, two accelerometer callbacks empty the group: the call is answered with the later accelerometer reading and null for the available gyroscope, and the gyroscope's later callback is the leave that finds the count at zero |
| IosStreams.Register | ios/Classes/FlutterMotionSensorsPlugin.swift:6-33 | registration builds one plugin over the given device with every channel idle (not listening, no sink); nothing listens and no update source runs, and the lifecycle invariant holds |
| IosStreams.Start | ios/Classes/FlutterMotionSensorsPlugin.swift:268-270 | start*Stream (same guard at 292, 315, 338) does nothing if the channel already listens or its source is unavailable; otherwise the flag is set and exactly that source starts updating |
| IosStreams.Stop | ios/Classes/FlutterMotionSensorsPlugin.swift:284-289 | stop*Stream (same at 307-312, 330-335, 363-368) does nothing when not listening; otherwise the flag and the sink are cleared and exactly that source stops |
| IosStreams.OnListen | ios/Classes/FlutterMotionSensorsPlugin.swift:379-383 | onListen installs the new sink before starting: on a listening channel only the sink changes and no second source starts; on an idle channel it listens exactly when available; the invariant is kept |
| IosStreams.OnCancel | ios/Classes/FlutterMotionSensorsPlugin.swift:385-388 | onCancel leaves the channel not listening and, if it listened, without a sink; a channel that never started keeps its sink; only that channel's update source stops, and no other channel, the device or the emissions change; the invariant is kept |
| IosStreams.SensorUpdate | ios/Classes/FlutterMotionSensorsPlugin.swift:272-281 | a callback of a running individual stream sends its sample to the sink when it carries data; in a reachable state a listening channel always has a sink |
| IosStreams.MotionUpdate | ios/Classes/FlutterMotionSensorsPlugin.swift:341-360 | a device-motion callback with data, while the motion source runs and a sink is held, sends exactly one motion record to the motion sink, carrying the acceleration and the rotation rate and a null magnetometer entry; otherwise nothing is sent |
| IosStreams.StopIdempotent | ios/Classes/FlutterMotionSensorsPlugin.swift:284-289 | stopping twice equals stopping once, and so does cancelling twice |
| IosStreams.RelistenReplacesSink | ios/Classes/FlutterMotionSensorsPlugin.swift:379-383 | listening again to a listening channel only replaces its sink |
| IosStreams.RunKeepsGood | ios/Classes/FlutterMotionSensorsPlugin.swift:268-446 | any sequence of onListen, onCancel and stream callbacks keeps the invariant that a source updates exactly while its channel listens and a listening channel is available and has a sink; emissions once sent stay in the log; method calls are not among these events |
| IosStreams.MotionNeverHasMagnetometer | ios/Classes/FlutterMotionSensorsPlugin.swift:337-360 | over any run, every motion record sent to a sink has a null magnetometer entry |

## Left out

- Values of readings: the ×9.81 acceleration conversion, user acceleration plus gravity, the timestamp scaling and every timestamp field. These are floating-point arithmetic and clock reads, so readings are opaque triples.
- SensorManager, CoreMotion and the Flutter channel classes. These are foreign APIs. Registration is a set of sensors (Android) or of running update sources (iOS). A sink is an optional identity plus a log of emissions.
- Timers, `Handler.postDelayed`, `DispatchGroup` scheduling, `AtomicBoolean` atomicity and main-queue dispatch. Concurrency is not modelled. Callbacks and the two-second timer are explicit events processed one at a time.
- Android: the `try`/`catch` around `registerListener` and all logging. A registration is assumed to succeed. The missing-sensor path that resets the listening flag is modelled.
- Android: when the sensor manager is null, every sensor is also null, so the model's `device` set covers that case.
- iOS: the `[weak self]` paths where the plugin is gone, because the model's plugin always outlives its callbacks.
- IosStreams.RunKeepsGood: one-shot reads and streams share one `CMMotionManager`, and the model keeps pending calls separate from the stream state, so the invariant holds only over stream events. In the program, a one-shot read's `stop*Updates` (ios/Classes/FlutterMotionSensorsPlugin.swift:49 and its siblings) halts a running stream of the same source. The device-motion branch of `getAllMotionSensorData` does the same to the motion stream (ios/Classes/FlutterMotionSensorsPlugin.swift:122-124). The listening flag stays set, so a later `onListen` returns at the guard, and the stream stays silent until `onCancel`. A one-shot read that restarts updates also replaces the handler of an earlier pending read of the same source, which may then never be answered.
- iOS: the model lets a one-shot read and each read of the fallback group receive any number of callbacks, because callbacks queued before `stop*Updates` may still run. A leave that finds the group's count at zero traps in the dispatch group. The model only marks it as unbalanced and does not describe what happens afterwards.
- iOS: the fallback read's `notify` block is modelled as running at the leave that empties the group. In the program it is queued on the main queue, and a callback already queued ahead of it could still change the readings it sends.
- macos/Classes/FlutterMotionSensorsPlugin.swift: a thin wrapper whose event channel is never stored, so it forwards nothing.
- ios/flutter_motion_sensors/Package.swift: a build manifest with no logic.
- Android: the caches are never cleared when a stream stops, and the model keeps them too.
