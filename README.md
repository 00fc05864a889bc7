# A verified model of the sensorfw core

sensorfw is the sensor framework of Sailfish and MeeGo devices. A daemon,
sensord, loads device adaptors, which read the hardware, and chains of
filters, which turn raw samples into what clients ask for. Logical sensor
channels are handed to client sessions, which configure them by requests.
This project models the deterministic bookkeeping and classification logic
of that framework in Dafny, and proves what that logic promises.

The model covers three groups.

- **Classifiers.** The orientation interpreter (top edge, face and device
  orientation from averaged accelerometer samples) and the screen interpreter
  (Screen.TopEdge and Screen.IsCovered context properties). The stability
  filter (stationary and shaky properties with hysteresis and a quiet-period
  timer). The downsample filter (per-axis mean of bufferSize samples). The
  magnetometer calibration filter (hard-iron centring by per-axis minimum and
  maximum). The ambient light channel's change filter and dark/bright bands.
  The example client's gesture handler.
- **Data flow.** The ring buffer between adaptors and filters, with its
  readers. The orientation multiplexer, which joins three streams into one.
  The Pegatron accelerometer adaptor's event decoding.
- **Registries and state machines.**
  - NodeBase's data-range queue and its interval, standby-override and buffer
    requests.
  - The property handler's per-session requests.
  - The sensor managers of the daemon and of the core library: sessions and
    reference-counted chains and adaptors.
  - AbstractSensorChannel's start counter and active sessions.
  - The start/stop/standby state machines of the sysfs and hybris adaptors.
  - The configuration lookup and the daemon's command-line parser.

Each source file is one module in a file of its own. `common.dfy` holds
shared pieces:
- an `Option` type;
- C++ integer division, which truncates toward zero;
- 64-bit wrap-around subtraction;
- ascending-key iteration over maps, which is the iteration order of QMap.

`registry.dfy` holds the error codes and instance entries that the two
sensor managers share. `xyz_data.dfy` holds the three-axis sample and its
truncating mean. `device_adaptor.dfy` holds an adaptor's reference-counted
sensor entry.

Where the source changes state in place, the model is a class with the
source's fields. Its methods are proved against pure step functions. The
step functions carry the properties as `ensures` clauses, and lemmas relate
several steps. Loops stay loops with their invariants: the ring-buffer read,
the NodeBase queue searches, the interval and buffer-size folds, the parser's
argument loop and the configuration loading.

Abstractions:
- Doubles are `real`.
- The trigonometry of `orientationCheck` is a function-valued parameter of
  the interpreter.
- The square root of the screen interpreter is a `magnitude` parameter whose
  square is the squared length.
- Timers are a field saying whether the timer runs, and with which interval.
- Reader threads and file descriptors are a flag. Whether starting them
  succeeds is a parameter.
- The file system of the configuration loader is a parameter mapping each
  file to its parsed settings, or to nothing.
- Signals, property writes and ring-buffer commits are recorded as the
  sequence of values emitted.

## Model

| member | source | states |
|---|---|---|
| Common.CleanId | core/sensormanager.cpp:208 | the clean id is the longest prefix of the id without ';', followed in the id by ';' when shorter |
| Common.Sub64 | filters/orientationinterpreter/orientationinterpreter.cpp:92 | the quint64 difference: adding b back gives a modulo 2^64, and it is the plain difference when a >= b |
| Common.DivTrunc | filters/downsamplefilter/downsamplefilter.cpp:88-92 | C++ integer division: b times the quotient is the dividend rounded toward zero to a multiple of b, for negative dividends too |
| Common.UpTo | core/sensormanager.cpp:208 | the longest prefix of s without c, followed in s by c when shorter than s |
| Common.RemoveAll | core/abstractsensor.cpp:75 | QList::removeAll: no longer, every kept element is from s and not x, and every element of s other than x is kept |
| Common.LeastKey | core/nodebase.cpp:427-450 | the next key of an ascending QMap walk is the least key not yet visited |
| XyzData.MeanOfOne | filters/downsamplefilter/downsamplefilter.cpp:79-92 | the mean of a one-sample buffer is that sample |
| XyzData.AxisSumBounds | filters/downsamplefilter/downsamplefilter.cpp:79-87 | a per-axis sum of n samples within [lo, hi] lies within [n*lo, n*hi] |
| XyzData.MeanWithinBuffer | filters/downsamplefilter/downsamplefilter.cpp:79-92 | each axis of the truncating mean lies between the smallest and the largest buffered value |
| XyzData.SumAxes | filters/downsamplefilter/downsamplefilter.cpp:79-87 | the summing loop returns the three per-axis sums of the buffer |
| XyzData.Mean | filters/downsamplefilter/downsamplefilter.cpp:88-92 | stamped with the given timestamp; per axis, the buffer size times the mean is the axis sum rounded toward zero to a multiple of the buffer size |
| DownsampleFilter.TimeoutRoundTrip | filters/downsamplefilter/downsamplefilter.cpp:47-56 | `setTimeout(ms)` then `timeout()` gives ms back, negative ms included (C++ truncating division) |
| DownsampleFilter.DefaultTimeoutReadsZero | filters/downsamplefilter/downsamplefilter.cpp:29-50 | the default timeout of -1 microseconds reads back as 0 milliseconds |
| DownsampleFilter.EraseLoopAsWritten | filters/downsamplefilter/downsamplefilter.cpp:62-74 | the erase loop as written never grows the buffer (it skips the sample after each erased one) |
| DownsampleFilter.Discard | filters/downsamplefilter/downsamplefilter.cpp:62-74 | the intended erase loop keeps at most bufferSize samples, and the oldest one kept is neither in excess nor expired |
| DownsampleFilter.DiscardIsSuffix | filters/downsamplefilter/downsamplefilter.cpp:62-74 | only the oldest samples are erased: what is kept is a suffix of the buffer |
| DownsampleFilter.DiscardKeepsNoExpired | filters/downsamplefilter/downsamplefilter.cpp:62-74 | with non-decreasing timestamps no kept sample has expired |
| DownsampleFilter.EraseLoopSkipsSamples | filters/downsamplefilter/downsamplefilter.cpp:62-74 | a concrete buffer on which the loop as written keeps an expired sample that the intended loop erases |
| DownsampleFilter.FilterEmitsFullBuffers | filters/downsamplefilter/downsamplefilter.cpp:58-98 | nothing is emitted while fewer than bufferSize samples are kept; an emitted sample is the newest-stamped mean of exactly bufferSize samples, and the buffer is then empty |
| DownsampleFilter.EmittedWithinSamples | filters/downsamplefilter/downsamplefilter.cpp:79-92 | an emitted value lies, per axis, between the extremes of the samples averaged |
| DownsampleFilter.DefaultsPassSamplesThrough | filters/downsamplefilter/downsamplefilter.cpp:29-34 | with the default buffer size 1 and timeout -1 every sample is emitted unchanged |
| DownsampleFilter.TimeoutMs | filters/downsamplefilter/downsamplefilter.cpp:47-50 | the microseconds rounded toward zero to whole milliseconds |
| DownsampleFilter.FilterSpec | filters/downsamplefilter/downsamplefilter.cpp:58-98 | without output fewer than bufferSize samples stay buffered; with output the buffer is empty and the output carries the new sample's timestamp |
| DownsampleFilter.Filter.constructor | filters/downsamplefilter/downsamplefilter.cpp:29-34 | buffer size 1, timeout -1, empty buffer |
| DownsampleFilter.Filter.SetBufferSize | filters/downsamplefilter/downsamplefilter.cpp:41-45 | the buffer size becomes the argument |
| DownsampleFilter.Filter.SetTimeout | filters/downsamplefilter/downsamplefilter.cpp:52-56 | the timeout is stored in microseconds and reads back as the argument |
| DownsampleFilter.Filter.Timeout | filters/downsamplefilter/downsamplefilter.cpp:47-50 | the stored microseconds truncated to milliseconds, exact when a multiple of 1000 |
| DownsampleFilter.Filter.Filter | filters/downsamplefilter/downsamplefilter.cpp:58-98 | buffer and output are those of `FilterSpec` (intended erase loop) |
| OrientationInterpreterFilter.RotateToPortrait | filters/orientationinterpreter/orientationinterpreter.cpp:136-151 | always a portrait edge; a rotation below SAME_AXIS_LIMIT keeps a current portrait edge, otherwise the sign picks BottomUp or BottomDown |
| OrientationInterpreterFilter.RotateToLandscape | filters/orientationinterpreter/orientationinterpreter.cpp:153-168 | always a landscape edge; a rotation below SAME_AXIS_LIMIT keeps a current landscape edge, otherwise the sign picks LeftUp or RightUp |
| OrientationInterpreterFilter.OrientationRotation | filters/orientationinterpreter/orientationinterpreter.cpp:170-177 | Undefined exactly when the rotation does not exceed the mode's threshold, otherwise the mode's rotator |
| OrientationInterpreterFilter.NewTopEdge | filters/orientationinterpreter/orientationinterpreter.cpp:179-201 | Undefined exactly when neither angle exceeds its threshold; a defined edge's family exceeded its threshold; the current family is kept whenever its angle exceeds its threshold |
| OrientationInterpreterFilter.NewFace | filters/orientationinterpreter/orientationinterpreter.cpp:220-236 | while \|mean z\| < 300 the face is kept; otherwise FaceDown exactly when z >= 0 and the top edge is Undefined, else FaceUp |
| OrientationInterpreterFilter.NewOrientation | filters/orientationinterpreter/orientationinterpreter.cpp:249-255 | the top edge when it is defined, otherwise the face |
| OrientationInterpreterFilter.Trim | filters/orientationinterpreter/orientationinterpreter.cpp:92-95 | the clean-up keeps at least the newest sample and stops exactly when the loop condition fails |
| OrientationInterpreterFilter.TrimIsSuffix | filters/orientationinterpreter/orientationinterpreter.cpp:92-95 | only the oldest samples are dropped |
| OrientationInterpreterFilter.TrimDropsOnlyWhileNeeded | filters/orientationinterpreter/orientationinterpreter.cpp:92-95 | every dropped sample was dropped while the loop condition held |
| OrientationInterpreterFilter.TopEdgeStep | filters/orientationinterpreter/orientationinterpreter.cpp:179-218 | only the top edge changes; it becomes `NewTopEdge` and is propagated, stamped with the sample's time, exactly when it changed |
| OrientationInterpreterFilter.FaceStep | filters/orientationinterpreter/orientationinterpreter.cpp:220-245 | only the face changes; it becomes `NewFace` and is propagated, stamped, exactly when \|z\| >= 300 and it differs from the previously propagated face |
| OrientationInterpreterFilter.OrientationStep | filters/orientationinterpreter/orientationinterpreter.cpp:247-263 | only the orientation changes; it becomes `NewOrientation` and is propagated, stamped, exactly when it changed |
| OrientationInterpreterFilter.InitialConsistent | filters/orientationinterpreter/orientationinterpreter.cpp:48-53 | the constructor's state satisfies the interpreter's invariant |
| OrientationInterpreterFilter.OverflowDiscarded | filters/orientationinterpreter/orientationinterpreter.cpp:81-86 | a sample failing the overflow check changes nothing and propagates nothing |
| OrientationInterpreterFilter.StepBuffer | filters/orientationinterpreter/orientationinterpreter.cpp:88-95 | after an accepted sample the buffer ends with it, holds at most maxBufferSize samples, and its oldest is within discardTime unless alone |
| OrientationInterpreterFilter.StepPropagatesOnChange | filters/orientationinterpreter/orientationinterpreter.cpp:77-120 | each of the three poses is propagated exactly when it changes, with the new value stamped with the sample's time |
| OrientationInterpreterFilter.StepOrientation | filters/orientationinterpreter/orientationinterpreter.cpp:247-255 | after a sample the orientation is the new top edge when defined, else the new face |
| OrientationInterpreterFilter.StepAlone | filters/orientationinterpreter/orientationinterpreter.cpp:88-120 | a sample on an empty buffer, or after the discard time, is classified on its own |
| OrientationInterpreterFilter.TrimAlone | filters/orientationinterpreter/orientationinterpreter.cpp:92-95 | the clean-up leaves only the new sample in that case |
| OrientationInterpreterFilter.StepAloneTo | filters/orientationinterpreter/orientationinterpreter.cpp:77-120 | such a sample that changes the top edge propagates the new edge with its timestamp |
| OrientationInterpreterFilter.FilterTestRightUp | tests/filters/filtertests.cpp:137-145 | the first test sample along -x gives RightUp at time 0 |
| OrientationInterpreterFilter.FilterTestLeftUp | tests/filters/filtertests.cpp:138-146 | the second test sample along +x gives LeftUp |
| OrientationInterpreterFilter.FilterTestBottomDown | tests/filters/filtertests.cpp:139-147 | the third test sample along -y falls back on the portrait edge BottomDown |
| OrientationInterpreterFilter.FilterTestBottomUp | tests/filters/filtertests.cpp:140-148 | the fourth test sample along +y gives BottomUp |
| OrientationInterpreterFilter.FilterTestSequence | tests/filters/filtertests.cpp:133-195 | the four samples of the top-edge test give RightUp, LeftUp, BottomDown, BottomUp with their timestamps |
| OrientationInterpreterFilter.OverFlow | filters/orientationinterpreter/orientationinterpreter.cpp:122-126 | a sample overflows exactly when its squared length lies outside [1000 * minLimit, 1000 * (maxLimit + 1)) |
| OrientationInterpreterFilter.Step | filters/orientationinterpreter/orientationinterpreter.cpp:77-120 | an overflowing sample changes and propagates nothing; otherwise the orientation follows the new top edge and face, and each propagated pose is the new stored one |
| OrientationInterpreterFilter.Interpreter.constructor | filters/orientationinterpreter/orientationinterpreter.cpp:48-75 | all poses Undefined, empty buffer, the configured settings |
| OrientationInterpreterFilter.Interpreter.AccDataAvailable | filters/orientationinterpreter/orientationinterpreter.cpp:77-120 | state and outputs follow `Step`, and the invariant is kept |
| OrientationInterpreterFilter.Interpreter.TrimBuffer | filters/orientationinterpreter/orientationinterpreter.cpp:92-95 | the buffer becomes `Trim` of itself |
| OrientationInterpreterFilter.Interpreter.ProcessTopEdge | filters/orientationinterpreter/orientationinterpreter.cpp:179-218 | state and output follow `TopEdgeStep` |
| OrientationInterpreterFilter.Interpreter.ProcessFace | filters/orientationinterpreter/orientationinterpreter.cpp:220-245 | state and output follow `FaceStep` |
| OrientationInterpreterFilter.Interpreter.ProcessOrientation | filters/orientationinterpreter/orientationinterpreter.cpp:247-263 | state and output follow `OrientationStep` |
| ScreenInterpreter.Decide | sensors/contextplugin/screeninterpreterfilter.cpp:58-78 | covered exactly when z is below minus the hysteresis-raised threshold; an edge is named only while \|z\| is under the lowered threshold, and then the dominant of \|x\| and \|y\| and its sign pick top, bottom, right or left, none when neither dominates |
| ScreenInterpreter.NextAverage | sensors/contextplugin/screeninterpreterfilter.cpp:63 | the new average lies between the old one and the new magnitude, half-way |
| ScreenInterpreter.OrientationTestSamples | tests/contextfw/orientation/testorientation.py:48-74 | with any average between 300 and 1200 mG the test's samples give top, right, bottom, left, not covered and covered |
| ScreenInterpreter.ScreenInterpreterFilter.constructor | sensors/contextplugin/screeninterpreterfilter.cpp:33-44 | average 1000 mG and neither property written yet |
| ScreenInterpreter.ScreenInterpreterFilter.ProvideScreenData | sensors/contextplugin/screeninterpreterfilter.cpp:53-85 | the average moves half-way to the magnitude; IsCovered is always written from `Decide` on the new average; TopEdge only when an edge was decided, otherwise it keeps its value |
| ScreenInterpreter.ScreenInterpreterFilter.Interpret | sensors/contextplugin/screeninterpreterfilter.cpp:46-51 | the sample is classified as by ProvideScreenData and propagated unchanged |
| StabilityFilter.NextStable | sensors/contextplugin/stabilityfilter.cpp:48-58 | stable below low(1-h), not stable above low(1+h), unchanged inside the band |
| StabilityFilter.NextUnstable | sensors/contextplugin/stabilityfilter.cpp:60-65 | not shaky below high(1-h), shaky above high(1+h), unchanged inside the band |
| StabilityFilter.StableInsideBand | sensors/contextplugin/stabilityfilter.cpp:46-58 | once stable, any run of variances never above low(1+h) keeps it stable |
| StabilityFilter.UnstableInsideBand | sensors/contextplugin/stabilityfilter.cpp:46-58 | once not stable, any run of variances never below low(1-h) keeps it not stable |
| StabilityFilter.Filter.constructor | sensors/contextplugin/stabilityfilter.cpp:29-42 | the given thresholds; the timeout is the configured seconds, 60 by default, times 1000; nothing written, timer stopped |
| StabilityFilter.Filter.Interpret | sensors/contextplugin/stabilityfilter.cpp:44-69 | both properties follow `NextStable` and `NextUnstable`; the timer stops below low(1-h) and restarts with the timeout otherwise; the data pass through unchanged |
| StabilityFilter.Filter.TimeoutTriggered | sensors/contextplugin/stabilityfilter.cpp:71-77 | stable becomes true and the timer stops, shaky is untouched |
| CalibrationFilter.NewRanges | chains/magcalibrationchain/calibrationfilter.cpp:49-61 | every new range contains the sample; while min x is 0 the ranges restart at the sample, otherwise each is widened by min/max |
| CalibrationFilter.WideningContainsOldRanges | chains/magcalibrationchain/calibrationfilter.cpp:54-61 | widening keeps every earlier range inside the new one |
| CalibrationFilter.Centre | chains/magcalibrationchain/calibrationfilter.cpp:62-64 | the centre lies inside the range and is half of min + max |
| CalibrationFilter.Level | chains/magcalibrationchain/calibrationfilter.cpp:66-72 | the level is in 0..3; it is 3 exactly when no centre moved and 0 exactly when all three moved |
| CalibrationFilter.Step | chains/magcalibrationchain/calibrationfilter.cpp:41-90 | a list shorter than three makes `at()` go out of range; otherwise a sample is emitted, the list keeps its length and the level is in 0..3 |
| CalibrationFilter.StepOutput | chains/magcalibrationchain/calibrationfilter.cpp:41-90 | the emitted sample keeps the timestamp and raw values; its calibrated values lie in ranges that contain the raw values; its level is the new level |
| CalibrationFilter.RepeatedSampleIsCalibrated | chains/magcalibrationchain/calibrationfilter.cpp:49-72 | a sample with non-zero x given twice in a row leaves level 3 |
| CalibrationFilter.DropThenSampleAsWritten | chains/magcalibrationchain/calibrationfilter.cpp:92-96 | after `dropCalibration()` as written the next sample indexes past the end of the empty list |
| CalibrationFilter.DropThenSampleRestarts | chains/magcalibrationchain/calibrationfilter.cpp:34-36 | after the corrected reset to three (0, 0) ranges the next sample restarts calibration at that sample |
| CalibrationFilter.Filter.constructor | chains/magcalibrationchain/calibrationfilter.cpp:26-37 | three (0, 0) ranges and level 0; the unset old centres are parameters |
| CalibrationFilter.Filter.UpdateRanges | chains/magcalibrationchain/calibrationfilter.cpp:49-61 | the first three ranges become `NewRanges` of them, the rest unchanged |
| CalibrationFilter.Filter.MagDataAvailable | chains/magcalibrationchain/calibrationfilter.cpp:41-90 | state and output follow `Step` |
| CalibrationFilter.Filter.DropCalibrationAsWritten | chains/magcalibrationchain/calibrationfilter.cpp:92-96 | the level becomes 0 and the list empty |
| CalibrationFilter.Filter.DropCalibration | chains/magcalibrationchain/calibrationfilter.cpp:92-96 | corrected: the level becomes 0 and the list goes back to three (0, 0) ranges |
| RingBuffer.Slot | core/ringbuffer.h:195-198 | the slot of the k-th object (k modulo the size) is a valid index, and k itself while k is below the size |
| RingBuffer.SlotsDistinct | core/ringbuffer.h:195-198 | fewer than bufferSize consecutive writes never reuse a slot, so no object is overwritten before bufferSize newer ones |
| RingBuffer.Reader.constructor | core/ringbuffer.h:65 | a new reader has read nothing |
| RingBuffer.Buffer.constructor | core/ringbuffer.h:149-156 | a fresh array of size slots, nothing written, no readers |
| RingBuffer.Buffer.Read | core/ringbuffer.h:174-187 | min(n, unread) objects are copied from consecutive slots and the reader advances by that many; when at most bufferSize were unread they are exactly the next objects written, in order |
| RingBuffer.Buffer.NextSlot | core/ringbuffer.h:195-198 | the next slot is a valid index and the write count's slot |
| RingBuffer.Buffer.Commit | core/ringbuffer.h:203-206 | the object in the next slot counts as written, and the last bufferSize objects are in their slots again |
| RingBuffer.Buffer.Put | core/ringbuffer.h:228-231 | one object goes to the next slot and is committed; no other slot changes |
| RingBuffer.Buffer.Write | core/ringbuffer.h:225-234 | the objects are written in order after the earlier ones, and the last bufferSize of them are in their slots |
| RingBuffer.Buffer.Join | core/ringbuffer.h:241-256 | a joining reader starts at the current write count and is added to the readers |
| RingBuffer.Buffer.Unjoin | core/ringbuffer.h:263-273 | only that reader is removed |
| OrientationMultiplexer.Initial | filters/orientationmultiplexer.cpp:5-21 | no value buffered and nothing propagated |
| OrientationMultiplexer.Output | filters/orientationmultiplexer.cpp:59-85 | the x, y, z of the three values are appended as one joined sample, every flag is cleared, the buffers are untouched |
| OrientationMultiplexer.AccelerationStep | filters/orientationmultiplexer.cpp:23-33 | with the other two buffered the value is joined with them and not stored; otherwise it is buffered and flagged and nothing is propagated; never are all three flagged |
| OrientationMultiplexer.MagneticFieldStep | filters/orientationmultiplexer.cpp:35-45 | the same for the magnetic field |
| OrientationMultiplexer.AngularVelocityStep | filters/orientationmultiplexer.cpp:47-57 | the same for the angular velocity |
| OrientationMultiplexer.Run | filters/orientationmultiplexer.cpp:7-57 | a run of arrivals propagates at most one joined sample per arrival |
| OrientationMultiplexer.AsWrittenNeverPropagates | filters/orientationmultiplexer.cpp:6 | with the acceleration sink wired to angularVelocityAvailable nothing is ever propagated and the acceleration flag is never set |
| OrientationMultiplexer.OneOfEachJoins | filters/orientationmultiplexer.cpp:23-85 | with each sink wired to its own handler and nothing buffered, one value at each sink in any order gives exactly one joined sample of those values and leaves nothing buffered |
| OrientationMultiplexer.HandlerAsWritten | filters/orientationmultiplexer.cpp:6-8 | no sink reaches the acceleration handler; the other two sinks reach their own |
| OrientationMultiplexer.Handle | filters/orientationmultiplexer.cpp:23-57 | one arrival propagates at most one joined sample, keeps what was propagated, never leaves all three values buffered, and only the acceleration handler sets the acceleration flag |
| OrientationMultiplexer.RunAsWritten | filters/orientationmultiplexer.cpp:6-57 | under the wiring as written, a run of arrivals only appends to what was propagated, at most one sample per arrival |
| OrientationMultiplexer.Multiplexer.constructor | filters/orientationmultiplexer.cpp:5-21 | the fields are `Initial` |
| OrientationMultiplexer.Multiplexer.Receive | filters/orientationmultiplexer.cpp:16-18 | a value at a sink runs that sink's own handler (intended wiring; `HandlerAsWritten` follows line 6) |
| OrientationMultiplexer.Multiplexer.AccelerationAvailable | filters/orientationmultiplexer.cpp:23-33 | the new state is `AccelerationStep` of the old one; never all three flagged |
| OrientationMultiplexer.Multiplexer.MagneticFieldAvailable | filters/orientationmultiplexer.cpp:35-45 | the new state is `MagneticFieldStep` of the old one |
| OrientationMultiplexer.Multiplexer.AngularVelocityAvailable | filters/orientationmultiplexer.cpp:47-57 | the new state is `AngularVelocityStep` of the old one |
| OrientationMultiplexer.Multiplexer.Outputter | filters/orientationmultiplexer.cpp:59-85 | the new state is `Output` of the old one |
| PegatronAdaptor.Interpreted | adaptors/pegatronaccelerometeradaptor/pegatronaccelerometeradaptor.cpp:45-65 | an EV_ABS event sets exactly the axis its code names; any other event or code changes nothing |
| PegatronAdaptor.EventsForDifferentAxesCombine | adaptors/pegatronaccelerometeradaptor/pegatronaccelerometeradaptor.cpp:49-62 | events for two different axes keep both values |
| PegatronAdaptor.EvaluateIntervalRequestsAsWritten | adaptors/pegatronaccelerometeradaptor/pegatronaccelerometeradaptor.cpp:86-113 | no request gives session -1 and the default; a lowest session asking 0 wins with the default; otherwise the smallest positive request and the lowest session asking it |
| PegatronAdaptor.AsWrittenAgreesWithoutLeadingZero | adaptors/pegatronaccelerometeradaptor/pegatronaccelerometeradaptor.cpp:97-112 | unless the lowest session asks 0, the choice as written is the smallest-positive choice of the Hybris adaptor |
| PegatronAdaptor.LeadingZeroHidesPositiveRequest | adaptors/pegatronaccelerometeradaptor/pegatronaccelerometeradaptor.cpp:98-112 | requests {1: 0, 2: 100} give the default 300 as written, where the smallest positive request 100 is meant |
| PegatronAdaptor.EvaluatedAsWritten | adaptors/pegatronaccelerometeradaptor/pegatronaccelerometeradaptor.cpp:86-113 | an outcome is session -1 for no requests or a session that has one, and its value is the default or that session's positive request |
| PegatronAdaptor.Adaptor.constructor | adaptors/pegatronaccelerometeradaptor/pegatronaccelerometeradaptor.cpp:15-38 | pending values 0 and a fresh ring buffer of 128 samples with nothing written |
| PegatronAdaptor.Adaptor.InterpretEvent | adaptors/pegatronaccelerometeradaptor/pegatronaccelerometeradaptor.cpp:45-65 | the pending values become `Interpreted` of the old ones |
| PegatronAdaptor.Adaptor.CommitOutput | adaptors/pegatronaccelerometeradaptor/pegatronaccelerometeradaptor.cpp:67-84 | the pending values, stamped with the event time, are written to the next slot and committed once; no other slot changes |
| NodeBase.FirstIndex | core/nodebase.cpp:151-156 | the position of the session's first request in the queue, -1 exactly when it has none |
| NodeBase.CurrentRangeIsAvailable | core/nodebase.cpp:113-123 | the current range is always an available one, reported under session -1 when the queue is empty |
| NodeBase.RequestedKeepsOthers | core/nodebase.cpp:149-161 | a request changes only the requesting session's entry: the other sessions keep their requests and order, the session now asks for the range, and the queue grows only for a new session |
| NodeBase.RequestedKeepsInvariant | core/nodebase.cpp:125-175 | a request keeps one request per session, each for an available range |
| NodeBase.RemovedIsWithout | core/nodebase.cpp:177-193 | with one request per session, removal takes out exactly that session's request and keeps the others in order |
| NodeBase.RemovedKeepsInvariant | core/nodebase.cpp:177-218 | a removal keeps the queue's invariant and leaves the session without a request |
| NodeBase.RequestSignalsExactlyRangeChanges | core/nodebase.cpp:134-147 | requestDataRange's test fires exactly when the current range changes |
| NodeBase.RemoveSignalsRangeChanges | core/nodebase.cpp:195-204 | whenever a removal changes the current range, removeDataRangeRequest's test fires |
| NodeBase.RemoveMayReapplyUnchangedRange | core/nodebase.cpp:197-204 | the converse fails: removing the head before a request for the same, non-first range re-applies the unchanged range |
| NodeBase.StandbyRequestsSpec | core/nodebase.cpp:378-389 | after a standby request the session is listed exactly when it asks for override, others keep their place, no session is listed twice |
| NodeBase.WinnerUnique | core/nodebase.cpp:435-446 | the winning interval request is unique |
| NodeBase.WinnerExists | core/nodebase.cpp:435-446 | every non-empty request map has a winner |
| NodeBase.IntervalAppliedSpec | core/nodebase.cpp:338-345 | the applied interval is the smallest requested, from the lowest session among equal ones, and nothing new without requests or for a negative session |
| NodeBase.LargestKeyChoiceSpec | core/nodebase.cpp:617-635 | the buffer size applied is the one of the largest session id, or 0 when every id is negative |
| NodeBase.LargestKeyValue | core/nodebase.cpp:619-628 | the loop, visiting the keys in any order, finds that same value |
| NodeBase.CurrentDataRange | core/nodebase.cpp:113-123 | the head of a non-empty queue, which is a queued request; otherwise a request under session -1 for an available range |
| NodeBase.Requested | core/nodebase.cpp:149-161 | the session asks for the range afterwards, the queue grows only for a new session, every other session's entry keeps its place, and nothing else is added |
| NodeBase.Removed | core/nodebase.cpp:179-191 | a session without a request leaves the queue as it is; otherwise the queue is one shorter and the entries before and after the removed one keep their order |
| NodeBase.RequestRangeChanged | core/nodebase.cpp:134-147 | the test is true exactly when the request changes the current range |
| NodeBase.RemoveRangeChanged | core/nodebase.cpp:193-201 | the test fires only when the session's request is the head, and it fires whenever taking out the head changes the current range |
| NodeBase.RequestStep | core/nodebase.cpp:125-170 | an unavailable range changes nothing; otherwise the queue is `Requested`, a change of the current range is always applied, only the new current range is ever applied, and the queue invariant is kept |
| NodeBase.RemoveStep | core/nodebase.cpp:177-213 | a session without a request changes nothing; otherwise the queue is `Removed`, and only the new current range is ever applied (`RemovedKeepsInvariant` states that the invariant is kept) |
| NodeBase.RemoveStepAppliesRangeChanges | core/nodebase.cpp:193-210 | whenever a removal changes the current range, the new current range is applied |
| NodeBase.StandbyRequests | core/nodebase.cpp:378-389 | the session is listed exactly when it asks for override, and every other session is listed exactly when it was before |
| NodeBase.IntervalApplied | core/nodebase.cpp:338-345 | nothing new without requests; a newly applied interval is the winning request, from a non-negative session |
| NodeBase.LargestKeyChoice | core/nodebase.cpp:617-628 | 0 when every session id is negative; a non-zero size is the request of some non-negative session |
| NodeBase.Node.constructor | core/nodebase.cpp:32-44 | no ranges, intervals or requests, default interval 0 and not set, no hook called |
| NodeBase.Node.IntroduceAvailableDataRange | core/nodebase.cpp:79-86 | a range is appended only when it is not listed yet |
| NodeBase.Node.IntroduceAvailableInterval | core/nodebase.cpp:272-279 | an interval is appended only when it is not listed yet |
| NodeBase.Node.GetCurrentDataRange | core/nodebase.cpp:113-123 | the head of the queue, or the first available range under session -1; always an available range |
| NodeBase.Node.RequestDataRange | core/nodebase.cpp:125-175 | an unavailable range changes nothing; otherwise the queue becomes `Requested` and the new current range is applied exactly when requestDataRange's test fires; the invariant is kept |
| NodeBase.Node.RemoveDataRangeRequest | core/nodebase.cpp:177-218 | a session with no request changes nothing; otherwise its request is taken out and the new current range is applied exactly when the head was removed and its range may change |
| NodeBase.Node.FindRequest | core/nodebase.cpp:181-186 | the loop's index is the session's first position, -1 when it has none |
| NodeBase.Node.IsValidIntervalRequest | core/nodebase.cpp:559-569 | true exactly when the value lies in one of the available intervals |
| NodeBase.Node.EvaluateIntervalRequests | core/nodebase.cpp:427-450 | session -1 and the default without requests; otherwise the smallest request, from the lowest session among equal ones |
| NodeBase.Node.SetIntervalRequest | core/nodebase.cpp:317-354 | succeeds exactly for a valid value; then the request is stored and the winner applied unless its session is negative; otherwise nothing changes |
| NodeBase.Node.ApplyWinner | core/nodebase.cpp:342-345 | the winner is applied unless its session id is -1 |
| NodeBase.Node.SetDefaultInterval | core/nodebase.cpp:457-467 | succeeds exactly for a valid interval, which then becomes the default; otherwise nothing changes |
| NodeBase.Node.RequestDefaultInterval | core/nodebase.cpp:469-481 | true with nothing changed when there is no default; otherwise it succeeds exactly for a valid default, which is then stored for the session and the winning interval applied, and an invalid default changes nothing |
| NodeBase.Node.RemoveIntervalRequest | core/nodebase.cpp:483-513 | the session's request is dropped and the winner of the remaining ones applied |
| NodeBase.Node.SetStandbyOverrideRequest | core/nodebase.cpp:375-395 | the list becomes `StandbyRequests`, override is applied exactly when some session asks for it, and the hook's result is returned |
| NodeBase.Node.StandbyOverride | core/nodebase.cpp:361-365 | false for a node without standby sources |
| NodeBase.Node.SetBufferSize | core/nodebase.cpp:601-608 | a size outside 1..256 is refused with nothing changed; otherwise it is stored for the session and the size of the largest session id applied |
| NodeBase.Node.ClearBufferSize | core/nodebase.cpp:610-615 | true exactly when the session had a size; it is dropped and the remaining choice applied |
| NodeBase.Node.UpdateBufferSize | core/nodebase.cpp:617-635 | applies the size of the largest session id and returns the hook's result |
| NodeBase.Node.SetBufferInterval | core/nodebase.cpp:637-644 | an interval outside 0..60000 is refused with nothing changed; otherwise it is stored and the interval of the largest session id applied |
| NodeBase.Node.ClearBufferInterval | core/nodebase.cpp:646-651 | true exactly when the session had an interval; it is dropped and the remaining choice applied |
| NodeBase.Node.UpdateBufferInterval | core/nodebase.cpp:653-671 | applies the interval of the largest session id and returns the hook's result |
| NodeBase.Node.SetDataRangeIndex | core/nodebase.cpp:673-683 | an index outside the list is refused with nothing changed; otherwise that range is requested and the result says whether it is now current |
| NodeBase.Node.RemoveSession | core/nodebase.cpp:685-692 | every request of the session, standby, interval, data range, buffer size and buffer interval, is withdrawn and no other session's request changes; then the override is applied exactly while someone still asks for it, the interval is `IntervalApplied`, the queue and applied range are `RemoveStep`, and the buffer size and interval are the `LargestKeyChoice` of what remains |
| NodeBase.Node.RemoveRangeAndBuffers | core/nodebase.cpp:689-691 | the data range request is removed as by `RemoveStep` and the queue loses exactly the session's requests; the buffer size and interval requests are dropped and re-applied as `LargestKeyChoice` |
| NodeBase.Node.RemoveRangeRequest | core/nodebase.cpp:689 | the queue loses exactly the session's requests, and the queue and the applied range are `RemoveStep` |
| NodeBase.Node.RemoveStandbyAndInterval | core/nodebase.cpp:687-688 | the session leaves the standby list and the interval map; the override is applied exactly while the list is non-empty, and the interval applied is `IntervalApplied` of the remaining map |
| NodeBase.Node.ClearBufferRequests | core/nodebase.cpp:690-691 | the session's buffer size and interval are dropped and each is re-applied as the `LargestKeyChoice` of the remaining requests |
| PropertyHandler.Key | sensord/propertyhandler.cpp:33 | the key is the property, "::" and the adaptor, so both parts can be read back from it |
| PropertyHandler.HighestValueUnique | sensord/propertyhandler.cpp:63-75 | the answer of `getHighestValue` is determined by the requests |
| PropertyHandler.HighestValueAfterRequest | sensord/propertyhandler.cpp:63-75 | a new positive request lowers the answer to it when it is smaller (or when there was none) and otherwise leaves it |
| PropertyHandler.NonPositiveRequestIgnored | sensord/propertyhandler.cpp:68-72 | a request that is not positive never changes the answer |
| PropertyHandler.ClearStep | sensord/propertyhandler.cpp:52-60 | clearing one more key extends the cleared set by that key |
| PropertyHandler.SignalStep | sensord/propertyhandler.cpp:52-60 | one more key adds a signal exactly when the session had a request there, keeping the signals free of duplicates |
| PropertyHandler.Handler.constructor | sensord/propertyhandler.cpp:31-46 | no requests, no signals |
| PropertyHandler.Handler.Requests | sensord/propertyhandler.cpp:66 | a key without an entry has no requests |
| PropertyHandler.Handler.SetRequest | sensord/propertyhandler.cpp:31-46 | the session's value is stored under the key (replacing its earlier value), nothing else changes, and one signal is emitted for the key |
| PropertyHandler.Handler.ClearRequests | sensord/propertyhandler.cpp:48-61 | the session's request is removed under every key and nowhere else, and exactly the keys that held one are signalled, once each, after the earlier signals |
| PropertyHandler.Handler.ClearKey | sensord/propertyhandler.cpp:53-59 | the session's request under one key is removed, signalling the key exactly when it held one |
| PropertyHandler.Handler.GetHighestValue | sensord/propertyhandler.cpp:63-75 | the smallest positive request for the key, or 0 when none is positive (despite the name) |
| Registry.Registered | core/sensormanager.cpp:65-70 | a new chain or adaptor entry has its type, a count of 0 and no instance |
| Registry.Acquire | core/sensormanager.cpp:359-384 | an instance is handed out exactly when one exists or the factory is known and the new one starts; the count then grows by one, otherwise the entry is unchanged and an error is set; the count invariant is kept |
| Registry.Release | core/sensormanager.cpp:400-421 | without an instance SmNotInstantiated and no change; otherwise the count drops by one and the instance survives exactly while other references remain |
| Registry.ReleaseUndoesAcquire | core/sensormanager.cpp:352-426 | a release undoes the request it matches |
| Registry.ReleaseAsWritten | core/sensormanager.cpp:322-329 | releaseSensor as both managers write it (also sensord/sensormanager.cpp:332-341): the channel is used before the no-session check, so the release fails exactly where no channel exists and otherwise is the intended `ReleaseStep` |
| CoreManager.EntryValidLater | core/sensormanager.cpp:687-690 | an entry valid for the ids issued so far stays valid when more ids are issued |
| CoreManager.RequestStep | core/sensormanager.cpp:287-299 | the new session is granted exactly when the sensor already has sessions or its channel can be created; a grant adds the session, a refusal changes nothing and reports SmNotInstantiated |
| CoreManager.RequestKeepsValid | core/sensormanager.cpp:287-299 | a request keeps the entry valid (channel exists exactly while sessions do) and the new id is fresh |
| CoreManager.ReleaseStep | core/sensormanager.cpp:325-345 | a release succeeds exactly for a session of the sensor; the session is removed and the channel goes with the last one; otherwise SmNotInstantiated and no change |
| CoreManager.ReleaseKeepsValid | core/sensormanager.cpp:325-345 | a release keeps the entry valid |
| CoreManager.ReleaseUndoesRequest | core/sensormanager.cpp:272-345 | releasing the session just granted restores the entry |
| CoreManager.ReleaseAsWrittenFailsWhenUnused | core/sensormanager.cpp:322-329 | on a valid entry the code as written fails exactly when no session holds the sensor |
| CoreManager.ReleaseOfUnrequestedSensor | core/sensormanager.cpp:314-329 | releasing a registered but never requested sensor dereferences the missing channel, where the intended check reports SmNotInstantiated |
| CoreManager.AddSensorSucceeds | core/sensormanager.cpp:226-245 | the channel survives addSensor only when a factory is known for the type, the channel is valid and its D-Bus registration succeeds; `RequestStep`'s contract is stated with it |
| CoreManager.Manager.constructor | core/sensormanager.cpp:103-138 | empty registries, no session ids issued, no error |
| CoreManager.Manager.RegisterSensor | core/sensormanager.h:192-212 | a new name is entered with its type and no sessions and the factory registered; a known name changes nothing |
| CoreManager.Manager.RegisterChain | core/sensormanager.h:214-234 | a new chain name is entered with count 0; a known name changes nothing |
| CoreManager.Manager.RegisterDeviceAdaptor | core/sensormanager.h:236-258 | the adaptor is entered under its clean name; a known name changes nothing |
| CoreManager.Manager.CreateNewSessionId | core/sensormanager.cpp:687-690 | the counter grows by one and is the new id |
| CoreManager.Manager.AddSensor | core/sensormanager.cpp:202-246 | an unregistered id reports SmIdNotRegistered; otherwise the channel exists afterwards exactly when the factory is known, the channel valid and its bus registration succeeds, with the matching error |
| CoreManager.Manager.OthersStayValid | core/sensormanager.cpp:287-297 | the entries not touched stay valid when one more id is issued |
| CoreManager.Manager.RequestSensor | core/sensormanager.cpp:272-300 | an unregistered id gets INVALID_SESSION with SmIdNotRegistered and no change; otherwise one id is drawn and the entry follows `RequestStep` |
| CoreManager.Manager.ReleaseSensor | core/sensormanager.cpp:302-350 | an id with parameters is refused without error, an unregistered one with SmIdNotRegistered; otherwise the entry follows `ReleaseStep` (intended order of checks) |
| CoreManager.Manager.RequestChain | core/sensormanager.cpp:352-391 | an unknown id reports SmIdNotRegistered; otherwise the entry follows `Acquire` |
| CoreManager.Manager.ReleaseChain | core/sensormanager.cpp:393-426 | an unknown id reports SmIdNotRegistered; otherwise the entry follows `Release` |
| CoreManager.Manager.RequestDeviceAdaptor | core/sensormanager.cpp:428-486 | an id with parameters or an unknown id reports SmIdNotRegistered; otherwise the entry follows `Acquire` with the adaptor's start result |
| CoreManager.Manager.ReleaseDeviceAdaptor | core/sensormanager.cpp:488-533 | an id with parameters or an unknown id reports SmIdNotRegistered; otherwise the entry follows `Release` |
| CoreManager.Manager.AdaptorCount | core/sensormanager.cpp:734-740 | the reference count, 0 for an unknown type, positive exactly while the adaptor is instantiated |
| SensordManager.NewSensorEntry | sensord/sensormanager.cpp:269-304 | a registered sensor nobody holds: no controlling session, no listeners, no channel |
| SensordManager.EntryValidLater | sensord/sensormanager.cpp:275-303 | an entry valid for the ids issued so far stays valid when more ids are issued |
| SensordManager.AddSensorStep | sensord/sensormanager.cpp:177-232 | a channel is handed out exactly when the factory is known, the channel valid and the bus registration succeeds; an unknown factory or invalid channel changes nothing; a valid channel records the session (as controller or as listener) even when the registration then fails |
| SensordManager.RequestControlSpec | sensord/sensormanager.cpp:275-289 | a control request on an uncontrolled sensor keeps the entry valid; the new session takes control (keeping the listeners) or nothing changes and INVALID_SESSION is returned |
| SensordManager.RequestListenSpec | sensord/sensormanager.cpp:303-317 | a listen request keeps the entry valid; the new session is appended as a listener or nothing changes and INVALID_SESSION is returned |
| SensordManager.ReleaseStep | sensord/sensormanager.cpp:337-382 | a release succeeds exactly for a session that holds the sensor; otherwise SmNotInstantiated and no change |
| SensordManager.ReleaseSpec | sensord/sensormanager.cpp:337-382 | a release keeps the entry valid, takes away exactly that session, and releasing control keeps the channel exactly while listeners remain |
| SensordManager.ReleaseUndoesControl | sensord/sensormanager.cpp:258-382 | releasing a session just granted control restores the entry |
| SensordManager.ReleaseUndoesListen | sensord/sensormanager.cpp:292-382 | releasing a session just granted as a listener restores the entry |
| SensordManager.ReleaseAsWrittenFailsWhenUnused | sensord/sensormanager.cpp:332-341 | on a valid entry the code as written fails exactly when no session holds the sensor, where the intended check reports SmNotInstantiated |
| SensordManager.ReleaseOfUnrequestedSensor | sensord/sensormanager.cpp:326-341 | releasing a registered but never requested sensor dereferences the missing channel |
| SensordManager.RequestControlStep | sensord/sensormanager.cpp:275-289 | the new session id is returned exactly when the sensor has listeners or the channel is created; a returned session holds control, without error; the listeners never change |
| SensordManager.RequestListenStep | sensord/sensormanager.cpp:303-317 | the new session id is returned exactly when some session holds the sensor or the channel is created; a returned session is appended to the listeners, without error; the controlling session never changes |
| SensordManager.Manager.constructor | sensord/sensormanager.cpp:73-105 | the registries as registered, nothing instantiated, no session ids issued, no error, no property requests |
| SensordManager.Manager.CreateNewSessionId | sensord/sensormanager.cpp:275 | the counter grows by one and is the new id |
| SensordManager.Manager.AddSensor | sensord/sensormanager.cpp:177-232 | an unregistered id reports SmIdNotRegistered; otherwise the entry, result and error follow `AddSensorStep` |
| SensordManager.Manager.OthersStayValid | sensord/sensormanager.cpp:275-303 | the entries not touched stay valid when one more id is issued |
| SensordManager.Manager.RequestControlSensor | sensord/sensormanager.cpp:258-290 | an unregistered id reports SmIdNotRegistered, a controlled sensor SmAlreadyUnderControl, both with INVALID_SESSION and no change; otherwise one id is drawn and the entry follows the control request |
| SensordManager.Manager.RequestListenSensor | sensord/sensormanager.cpp:292-318 | an unregistered id reports SmIdNotRegistered with no change; otherwise one id is drawn and the entry follows the listen request |
| SensordManager.Manager.ReleaseSensor | sensord/sensormanager.cpp:320-389 | an unregistered id reports SmIdNotRegistered; otherwise the session's property requests are cleared and the entry follows `ReleaseStep` (intended order of checks) |
| SensordManager.Manager.RequestChain | sensord/sensormanager.cpp:391-418 | an unknown id reports SmIdNotRegistered; otherwise the entry follows `Acquire` |
| SensordManager.Manager.ReleaseChain | sensord/sensormanager.cpp:420-439 | an unknown id reports SmIdNotRegistered; otherwise the entry follows `Release` |
| SensordManager.Manager.RequestDeviceAdaptor | sensord/sensormanager.cpp:441-493 | an unknown id reports SmIdNotRegistered; otherwise the entry follows `Acquire` with the adaptor's start result |
| SensordManager.Manager.ReleaseDeviceAdaptor | sensord/sensormanager.cpp:495-530 | an unknown id reports SmIdNotRegistered; otherwise the entry follows `Release` |
| AbstractSensor.Started | core/abstractsensor.cpp:67-71 | `start()` increments the counter and reports true exactly when it went from 0 to 1 |
| AbstractSensor.Stopped | core/abstractsensor.cpp:85-90 | `stop()` decrements the counter, clamps it at 0, and reports true exactly when it went from 1 to 0 |
| AbstractSensor.StopUndoesStart | core/abstractsensor.cpp:67-90 | a stop after a start restores the counter, and reports true only for the last start |
| AbstractSensor.WithSession | core/abstractsensor.cpp:57-60 | the active sessions after `start(sessionId)` are the old ones plus that session |
| AbstractSensor.WithSessionKeepsNoDuplicates | core/abstractsensor.cpp:57-60 | the active-session list never holds a session twice |
| AbstractSensor.StopSessionUndoesStart | core/abstractsensor.cpp:57-83 | `stop(sessionId)` of a session that was not active undoes its `start(sessionId)` on the list |
| AbstractSensor.Channel.constructor | core/abstractsensor.cpp:39-45 | the id is the clean id, the counter 0, and no session is active |
| AbstractSensor.Channel.StartSession | core/abstractsensor.cpp:57-65 | the session is added once and the counter follows `Started`; a set and valid default interval is requested for the session and the winning interval applied, while an invalid or missing default changes neither the requests nor the applied interval |
| AbstractSensor.Channel.Start | core/abstractsensor.cpp:67-71 | counter and result follow `Started` |
| AbstractSensor.Channel.StopSession | core/abstractsensor.cpp:73-83 | every occurrence of the session is removed; the interval request is removed exactly when the channel stops |
| AbstractSensor.Channel.Stop | core/abstractsensor.cpp:85-90 | counter and result follow `Stopped` |
| SysfsAdaptor.StartStep | core/sysfsadaptor.cpp:109-149 | an unknown id fails with nothing changed; succeeds exactly when already running, deferred by standby without override, or the reader starts; each success adds one reference; a failed reader start rolls back the reference and every flag; other entries are untouched; the invariant is kept |
| SysfsAdaptor.StopStep | core/sysfsadaptor.cpp:151-174 | an unknown id or an adaptor that should not run changes nothing; otherwise one reference is dropped and the adaptor stops exactly when the count reaches 0 or less, its reader too outside standby |
| SysfsAdaptor.StandbyStep | core/sysfsadaptor.cpp:176-195 | always true; with override or already in standby nothing changes; otherwise the adaptor enters standby and stops reading, still remembering whether it should run |
| SysfsAdaptor.ResumeStep | core/sysfsadaptor.cpp:197-220 | outside standby nothing changes; standby always ends; the reader restarts only when the adaptor should run; false exactly when that restart fails |
| SysfsAdaptor.StandbyThenResume | core/sysfsadaptor.cpp:176-220 | standby then a successful resume restores the adaptor exactly |
| SysfsAdaptor.DeferredStartRunsOnResume | core/sysfsadaptor.cpp:126-131 | a start deferred by standby runs once the adaptor resumes and its reader starts |
| SysfsAdaptor.Adaptor.constructor | core/sysfsadaptor.cpp:36-58 | idle, not initialised, every sensor unreferenced |
| SysfsAdaptor.Adaptor.StartAdaptor | core/sysfsadaptor.cpp:82-92 | always succeeds and the adaptor is initialised |
| SysfsAdaptor.Adaptor.StartSensor | core/sysfsadaptor.cpp:109-149 | the new state and result are `StartStep` of the old state |
| SysfsAdaptor.Adaptor.StopSensor | core/sysfsadaptor.cpp:151-174 | the new state is `StopStep` of the old one |
| SysfsAdaptor.Adaptor.Standby | core/sysfsadaptor.cpp:176-195 | the new state and result are `StandbyStep` of the old state |
| SysfsAdaptor.Adaptor.Resume | core/sysfsadaptor.cpp:197-220 | the new state and result are `ResumeStep` of the old state |
| SysfsAdaptor.Adaptor.StopAdaptor | core/sysfsadaptor.cpp:94-107 | nothing changes when not initialised; afterwards it is uninitialised, keeps its invariant and entries, and no entry loses more than one reference |
| HybrisAdaptor.EvaluatedUnique | core/hybrisadaptor.cpp:511-534 | the interval choice is a function of the requests: at most one session and value meet it |
| HybrisAdaptor.ZeroNeverWins | core/hybrisadaptor.cpp:519-530 | a request of 0 never wins while some session asks for a positive interval |
| HybrisAdaptor.EvaluateIntervalRequests | core/hybrisadaptor.cpp:511-534 | no request gives session -1 and the default; otherwise the smallest positive request, the lowest session among equal ones; only zero requests give the default, attributed to the highest session |
| HybrisAdaptor.StartStep | core/hybrisadaptor.cpp:365-404 | without an entry nothing changes and the start fails; otherwise a reference is always added; the start succeeds exactly when the adaptor is not running and not in standby without override, and then it leaves standby and runs; running implies should-be-running is kept |
| HybrisAdaptor.StopStep | core/hybrisadaptor.cpp:406-428 | without an entry or when it should not run nothing changes; otherwise a reference is dropped and the adaptor, its entry and should-be-running stop exactly when the count reaches 0 or less |
| HybrisAdaptor.StandbyStep | core/hybrisadaptor.cpp:431-450 | refused with nothing changed when already in standby or not running; otherwise in standby and running exactly when standby is overridden off |
| HybrisAdaptor.ResumeStep | core/hybrisadaptor.cpp:453-479 | refused outside standby; otherwise standby ends and the adaptor runs again, reporting true, exactly when it should be running |
| HybrisAdaptor.StandbyThenResume | core/hybrisadaptor.cpp:431-479 | standby then resume returns a running adaptor to its exact state, with or without override |
| HybrisAdaptor.RefusedStartNotResumed | core/hybrisadaptor.cpp:382-386 | a start refused in standby only adds a reference: resume does not run the adaptor |
| HybrisAdaptor.Evaluated | core/hybrisadaptor.cpp:511-534 | an outcome is session -1 for no requests or a session that has one, and its value is the default or that session's positive request |
| HybrisAdaptor.Adaptor.constructor | core/hybrisadaptor.cpp:312-328 | idle, out of standby, an unreferenced entry when the type is known |
| HybrisAdaptor.Adaptor.StartSensor | core/hybrisadaptor.cpp:365-404 | the new state and result are `StartStep` of the old state |
| HybrisAdaptor.Adaptor.StopSensor | core/hybrisadaptor.cpp:406-428 | the new state is `StopStep` of the old one |
| HybrisAdaptor.Adaptor.Standby | core/hybrisadaptor.cpp:431-450 | the new state and result are `StandbyStep` of the old state |
| HybrisAdaptor.Adaptor.Resume | core/hybrisadaptor.cpp:453-479 | the new state and result are `ResumeStep` of the old state |
| HybrisAdaptor.Adaptor.StopAdaptor | core/hybrisadaptor.cpp:358-363 | a running sensor is stopped once, otherwise nothing changes |
| Config.NameLessAsymmetric | core/config.cpp:63-64 | the directory's name order never puts two names before each other |
| Config.NameLessTotal | core/config.cpp:63-64 | any two different names are ordered one way or the other |
| Config.NameLessTransitive | core/config.cpp:63-64 | the name order is transitive |
| Config.FirstNameExists | core/config.cpp:63-64 | every non-empty set of file names has a first name |
| Config.HasFirstName | core/config.cpp:63-64 | a first name exists for every non-empty set of names |
| Config.FirstName | core/config.cpp:63-64 | the name returned is in the set and before every other name of it |
| Config.ConsAscending | core/config.cpp:63-64 | a name before every name of an ascending list starts an ascending list |
| Config.EntryList | core/config.cpp:63-64 | `entryList()` lists every file name of the directory exactly once, in ascending name order |
| Config.LookupSpec | core/config.cpp:102-111 | `value()` gives the default exactly when no file holds the key, and otherwise the value of the first file that does |
| Config.AddGroups | core/config.cpp:116-121 | adding a file's groups keeps the earlier groups in front |
| Config.Collected | core/config.cpp:113-123 | the groups of all files keep the groups of the earlier files in front |
| Config.AddGroupsSpec | core/config.cpp:116-121 | adding groups keeps the list free of duplicates and holds exactly the old and the new groups |
| Config.InSomeFileSnoc | core/config.cpp:113-123 | a section is in some file of a list with one more file exactly when it is in an earlier file or in that one |
| Config.CollectedSpec | core/config.cpp:113-123 | `groups()` holds every section of every loaded file, each once |
| Config.Loaded | core/config.cpp:80-100 | loading never gives more settings than files |
| Config.LoadedMembers | core/config.cpp:80-100 | a settings file is loaded exactly when it existed and parsed |
| Config.LoadedAppend | core/config.cpp:66-73 | loading two lists of files in turn loads the first one's files, then the second one's |
| Config.LookupLoaded | core/config.cpp:66-111 | a key reads the value of the first file that loaded and holds it, whatever failed to load before it |
| Config.LoadStep | core/config.cpp:69-73 | one more file appends its settings when it parses, and the list stays fully loaded only then |
| Config.Contents | core/config.cpp:69-73 | the conf.d files in the given order, one for each name |
| Config.LoadOrder | core/config.cpp:63-73 | the main file is read first, then the conf.d files by ascending name |
| Config.MainFileWins | core/config.cpp:67-68 | a key set in the main file reads the main file's value |
| Config.EarlierNameWins | core/config.cpp:63-73 | a key missing from the main file reads the value from the conf.d file that comes first by name among those that loaded and hold it |
| Config.Lookup | core/config.cpp:102-111 | the answer is the default or the value some loaded file holds for the key |
| Config.Config.constructor | core/config.cpp:38-39 | no settings loaded |
| Config.Config.LoadConfigFile | core/config.cpp:80-100 | true exactly when the file exists and parses, and then it is appended |
| Config.Config.LoadConfig | core/config.cpp:51-78 | every file is loaded in `LoadOrder`; the result is true exactly when all of them loaded |
| Config.Config.LoadConfigFiles | core/config.cpp:69-73 | each file is loaded in turn, a failure does not stop the others, and the result is true exactly when all loaded |
| Config.Config.Value | core/config.cpp:102-111 | the result is `Lookup` over the loaded settings |
| Config.Config.Groups | core/config.cpp:113-123 | the result is `Collected` of the loaded settings |
| Parser.Defaults | sensord/parser.cpp:29-38 | context info and magnetometer calibration on, every other flag off, empty path and level, no log target |
| Parser.Field | sensord/parser.cpp:54-56 | no field exactly when the argument has no '='; otherwise the text after the first '=' up to the next one or the end |
| Parser.ToInt | sensord/parser.cpp:62 | always within the 32-bit int range; a numeral within that range reads as its value, and any other text, or a numeral outside the range, as 0 |
| Parser.Apply | sensord/parser.cpp:52-84 | fails exactly when a valued option is named and there is no field |
| Parser.ParseArg | sensord/parser.cpp:48-86 | fails exactly when the argument names a valued option without '='; otherwise each named option takes effect, by substring match, and every other field is kept |
| Parser.ParseAll | sensord/parser.cpp:46-87 | the whole command line parses exactly when no argument lacks the value it asks for |
| Parser.ParseAllStep | sensord/parser.cpp:46-87 | a successful parse is the first argument's parse followed by the parse of the remaining arguments |
| Parser.LastConfigFileWins | sensord/parser.cpp:65-70 | the configuration file path is the field of the last argument naming the option, and the flag is set |
| Parser.NoMoreConfigFile | sensord/parser.cpp:65-70 | arguments not naming the option keep the path and the flag |
| Parser.LastLogLevelWins | sensord/parser.cpp:52-57 | the log level is the field of the last argument naming it, and changeLogLevel is set |
| Parser.NoMoreLogLevel | sensord/parser.cpp:52-57 | arguments not naming the option keep the level and the flag |
| Parser.SwitchesSpec | sensord/parser.cpp:72-84 | daemon is on exactly when some argument contains -d or --daemon, help likewise, and context info stays on exactly when no argument contains --no-context-info |
| Parser.DaemonSpec | sensord/parser.cpp:72-84 | daemon mode is on after the parse exactly when it was on before or some argument contains -d or --daemon |
| Parser.HelpSpec | sensord/parser.cpp:72-84 | help is on after the parse exactly when it was on before or some argument contains -h or --help |
| Parser.ContextInfoSpec | sensord/parser.cpp:72-84 | context info stays on exactly when it was on and no argument contains --no-context-info |
| Parser.GetLogLevel | sensord/parser.cpp:99-110 | test, debug and critical map to their levels exactly for those names; every other text, warning included, gives warning |
| Parser.Numeral | sensord/parser.cpp:62 | a value exactly for an optionally signed string of decimal digits; negative only after '-', never negative without it (`NumeralRoundTrip` gives the value) |
| Parser.Decimal | sensord/parser.cpp:62 | the decimal digits of a natural number, without leading zeros, which read back as that number |
| Parser.NumeralRoundTrip | sensord/parser.cpp:62 | every integer's numeral, its digits after a '-' when negative, reads back as that integer |
| Parser.ToIntRoundTrip | sensord/parser.cpp:62 | toInt reads the numeral of every 32-bit int back as that int |
| Parser.ApplyValued | sensord/parser.cpp:52-70 | each valued option the argument names takes the field; without any, the options are unchanged; the switches never change |
| Parser.ApplySwitches | sensord/parser.cpp:72-84 | only the switches change; a named switch is set or cleared as the option says; without any, the options are unchanged |
| Parser.Parser.constructor | sensord/parser.cpp:29-40 | the fields are `ParseAll` of the defaults over the arguments |
| Parser.Parser.ParsingCommandLine | sensord/parser.cpp:46-87 | the new fields and the outcome are `ParseAll` of the old fields over the arguments |
| Parser.Parser.ParseOption | sensord/parser.cpp:48-86 | succeeds exactly when `ParseArg` does, with its fields; on failure nothing changes |
| Parser.Parser.ParseValued | sensord/parser.cpp:52-70 | the valued options take the field |
| Parser.Parser.ParseSwitches | sensord/parser.cpp:72-84 | the switches are applied |
| AlsSensor.Bands | sensors/alssensor/alssensor.cpp:140-154 | IsDark exactly below 10, IsBright exactly above 290, never both |
| AlsSensor.ContextTestReadings | tests/contextfw/als/testals.py:50-74 | 9 is dark, 148 neither, 307 bright |
| AlsSensor.Initial | sensors/alssensor/alssensor.cpp:37-47 | previous value 0, nothing written, the written-changes-only invariant holds |
| AlsSensor.EmitStep | sensors/alssensor/alssensor.cpp:132-155 | a value equal to the previous one is not written; any other is appended and becomes the previous one; both properties are set from the value's band; the written-changes-only invariant is kept |
| AlsSensor.RepeatWritesOnce | sensors/alssensor/alssensor.cpp:134-138 | a value emitted twice in a row is written at most once |
| AlsSensor.Channel.constructor | sensors/alssensor/alssensor.cpp:37-47 | the state is `Initial` and the invariant holds |
| AlsSensor.Channel.EmitToDbus | sensors/alssensor/alssensor.cpp:132-155 | the new state is `EmitStep` of the old one, the invariant is kept |
| GestureHandler.Initial | examples/client/gesturehandler.cpp:3-11 | inactive, no history, the given thresholds, previous values 0, nothing emitted |
| GestureHandler.AxisGesture | examples/client/gesturehandler.cpp:55-77 | an increase exactly when the value dropped by more than the threshold, a decrease exactly when it rose by more and did not drop, nothing otherwise |
| GestureHandler.KeyStep | examples/client/gesturehandler.cpp:13-39 | 199 activates, 200 deactivates and drops the history, each with its signal; any other key is forwarded; the previous values never change |
| GestureHandler.SampleStep | examples/client/gesturehandler.cpp:41-88 | nothing while inactive; the first active sample only seeds the history; later ones emit the y then the z gesture; at most two signals per sample; an active sample always becomes the history |
| GestureHandler.ReactivationDiscardsHistory | examples/client/gesturehandler.cpp:22-83 | after 200 then 199 the next sample emits no gesture |
| GestureHandler.GestureReverses | examples/client/gesturehandler.cpp:55-65 | with a non-negative threshold a move is an increase exactly when the move back is a decrease |
| GestureHandler.Handler.constructor | examples/client/gesturehandler.cpp:3-11 | the fields are `Initial` |
| GestureHandler.Handler.HandleKey | examples/client/gesturehandler.cpp:13-39 | the new state is `KeyStep` of the old one |
| GestureHandler.Handler.HandleSample | examples/client/gesturehandler.cpp:41-88 | the new state is `SampleStep` of the old one |

## Left out

- D-Bus adaptors and marshalling, sockets, the plugin loader, logging and the hardware drivers: these are foreign I/O. Property writes, signals and socket writes are recorded as sequences of emitted values.
- Reader threads, epoll and file descriptors (SysfsAdaptorReader, HybrisAdaptorReader, HybrisManager): these are concurrency and OS calls. A flag stands for the running reader, and whether it starts is a parameter.
- Floating point: doubles are exact reals, so rounding is not modelled. `atan` in `orientationCheck` is an uninterpreted function-valued parameter. The `sqrt` of the screen interpreter is a parameter whose square is the squared length.
- 32-bit `int` overflow in sums, differences and squares (the interpreter, downsample and gesture arithmetic) is not modelled: integers are unbounded. quint64 timestamp differences do wrap modulo 2^64.
- idutils.h is not part of this model. `getCleanId` is taken to be the part of the id before the first ';'.
- deviceadaptor.cpp is not part of this model. An AdaptedSensorEntry is a plain reference count and a running flag, and `deviceStandbyOverride()` is a field.
- NodeBase: the branches that forward requests to a range, interval or standby source are not modelled, nor the loops over `m_sourceList`. The node is one that keeps its own ranges and intervals. The subclass hooks record their last argument, and their results are parameters.
- NodeBase: `parseDataRangeList` and the configuration-driven `introduceAvailableDataRanges`/`introduceAvailableIntervals` parse doubles and are left out. The `propertyChanged` signals are left out.
- NodeBase.Node.GetCurrentDataRange: requires a non-empty queue or range list, because the source reads the first range of an empty list there.
- OrientationInterpreterFilter.Interpreter.constructor: requires a maximum buffer size of at least 1, because with 0 the source divides by an empty buffer.
- The interpreter's cpu-boost file writes and the QSettings reads of its constructor are left out. The settings are a parameter.
- DownsampleFilter.Filter.Filter: requires bufferSize >= 1, because with 0 the mean divides by zero.
- DownsampleFilter: `long` and `unsigned long` are taken to be 64 bits wide, as on LP64 targets. `timeout_` is reduced modulo 2^64 and `static_cast<long>(ms) * 1000` is not bounded. On a 32-bit build, where both types are 32 bits, large timeouts wrap differently.
- RingBuffer.Buffer.Read: requires readCount <= writeCount. This holds for every joined reader. Wrap-around of the unsigned counters is not modelled.
- RingBuffer.Buffer.NextSlot, RingBuffer.Buffer.Put, RingBuffer.Buffer.Write: require bufferSize >= 1, because the source's `% bufferSize_` is undefined for a buffer of size 0, which the constructor accepts.
- RingBuffer: the `wakeUpReaders` notification and the reader's NodeBase sink are left out.
- PropertyHandler: the order in which `clearRequests` signals the affected keys follows the key order, which is not modelled. Splitting a key into property and adaptor is left out.
- SysfsAdaptor.Adaptor.StopAdaptor: the order of the `foreach` over the sensors is not fixed by the source, so the contract states only that no entry loses more than one reference and the invariant is kept. It does not state which entries stop.
- SysfsAdaptor: `addPath`, `openFds` and `closeAllFds` are file-system I/O and are left out.
- HybrisAdaptor: `startReaderThread` and `resumeReader` always succeed in the source, so their failure branches are dead and are not modelled. `startAdaptor`, `closeSensors` and `setInterval` call HybrisManager and are left out. The constructor leaves `shouldBeRunning_` uninitialised, so its first value is a constructor parameter.
- PegatronAdaptor: the constructor's `sleep`, its input-device lookup and its metadata (ranges, intervals, default interval) are left out. `wakeUpReaders` is left out.
- CalibrationFilter.Step, CalibrationFilter.Filter.MagDataAvailable: the source propagates each calibrated sample twice, through `magSource` and `source_`; the model records it once, as one `Outcome`.
- CalibrationFilter: the constructor leaves oldX, oldY and oldZ uninitialised. They are constructor parameters.
- SensordManager: sensord/sensormanager.h is not part of this model. `Q_ASSERT` conditions are preconditions, except the `Q_ASSERT( false )` on the failed bus registration of addSensor: AddSensorStep goes on past it, as a release build does, and records the session. The socket handler, the display-state and MCE watchers and the D-Bus plumbing are left out.
- CoreManager: the static session counter of createNewSessionId is the manager's field `sessionIdCount`. The D-Bus registration and factory results are parameters.
- Config: QDir's sort by name is taken to be lexicographic order of the names' characters, which are Unicode code points; QString compares UTF-16 code units, so names with characters outside the Basic Multilingual Plane can sort differently. The static singleton is modelled as one instance. Reading and parsing a file is a parameter.
- Parser: an argument that names a valued option without '=' makes the source read past the end of its split list. The model reports that as a failed parse and stops. `logTarget_` is not initialised by the constructor, so it has no value until an option sets it.
- Parser.ToInt: whitespace around the number, which QString::toInt ignores, is not accepted.
- OrientationMultiplexer: AccMagGyrData is not part of this model. It is taken as the x, y, z of the three inputs. `Q_ASSERT(n == 1)` is modelled by passing one value. The qDebug output is left out.
- AlsSensor: the context properties are assumed to be built in (PROVIDE_CONTEXT_INFO). The constructor's adaptor, filter and bin wiring and start/stop are left out.
- AbstractSensor: setError and its error signal are left out. The model keeps the start counter, the active sessions and the interval requests.
- GestureHandler: the qDebug output is left out.

## Findings

| source | as written | input that shows it | evidently intended | confidence | as-written member | corrected member |
|---|---|---|---|---|---|---|
| filters/downsamplefilter/downsamplefilter.cpp:62-74 | after `it = erase(it)` the loop still does `++it`, so the sample after each erased one is never checked | bufferSize 5, timeout 1 ms, samples at 0, 1 and 2 µs, then one at 5000 µs: the buffer keeps the samples at 1 and 5000 µs | every expired sample is discarded, leaving only the one at 5000 µs | not executed | DownsampleFilter.EraseLoopSkipsSamples | DownsampleFilter.DiscardKeepsNoExpired |
| adaptors/pegatronaccelerometeradaptor/pegatronaccelerometeradaptor.cpp:98-112 | the walk starts from the lowest session's request and only a smaller positive request replaces it, so a leading 0 is never replaced | requests {1: 0, 2: 100} give the default 300 | the smallest positive request, 100, as the hybris adaptor computes it | not executed | PegatronAdaptor.LeadingZeroHidesPositiveRequest | HybrisAdaptor.EvaluateIntervalRequests |
| core/sensormanager.cpp:322-329 | `sensor_->removeSession` is called before the check that some session holds the sensor, and `sensor_` is null while none does | releasing session 1 of a registered sensor that was never requested | refuse with SmNotInstantiated before the channel is used | not executed | CoreManager.ReleaseOfUnrequestedSensor | CoreManager.ReleaseStep |
| sensord/sensormanager.cpp:332-341 | `sensor_` is used for the standby and data-range requests before the check that the sensor has a session, and it is null while none has | releasing session 1 of a registered sensor that was never requested | refuse with SmNotInstantiated before the channel is used | not executed | SensordManager.ReleaseOfUnrequestedSensor | SensordManager.ReleaseStep |
| chains/magcalibrationchain/calibrationfilter.cpp:92-96 | dropCalibration empties minMaxList, and the next sample reads `minMaxList.at(0)` | any sample after dropCalibration reads an element of an empty list | calibration restarts from the next sample, with three fresh ranges | not executed | CalibrationFilter.DropThenSampleAsWritten | CalibrationFilter.DropThenSampleRestarts |
| filters/orientationmultiplexer.cpp:6 | the acceleration sink calls `angularVelocityAvailable`, so the acceleration flag is never set and nothing is ever output | one value at each of the three sinks, in any order, outputs nothing | each sink calls its own handler, and one value at each sink is joined into one sample | not executed | OrientationMultiplexer.AsWrittenNeverPropagates | OrientationMultiplexer.OneOfEachJoins |
