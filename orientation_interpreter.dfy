// Model of OrientationInterpreter (filters/orientationinterpreter): the filter
// that turns accelerometer samples into top-edge, face and device-orientation
// poses. Samples are averaged over a short buffer; the top edge is picked by
// comparing tilt angles against per-mode thresholds, with a dead band that
// keeps the current edge inside its own axis family.
module OrientationInterpreterFilter {
  import opened Common
  import opened XyzData

  /** PoseData::Orientation. */
  datatype Orientation = Undefined | LeftUp | RightUp | BottomDown | BottomUp | FaceDown | FaceUp

  /** OrientationInterpreter::OrientationMode. */
  datatype Mode = Portrait | Landscape

  /** AccelerationData is a typedef of TimedXyzData. */
  type AccelerationData = TimedXyzData

  datatype PoseData = PoseData(timestamp: U64, orientation: Orientation)

  /** The configuration values read by the constructor. */
  datatype Settings = Settings(
    minLimit: int, maxLimit: int,
    thresholdPortrait: int, thresholdLandscape: int,
    discardTime: nat, maxBufferSize: int)

  const SAME_AXIS_LIMIT: int := 5
  const OVERFLOW_MIN: int := 0
  const OVERFLOW_MAX: int := 0x7fff_ffff
  const THRESHOLD_LANDSCAPE: int := 25
  const THRESHOLD_PORTRAIT: int := 20
  const DISCARD_TIME: nat := 750000
  const AVG_BUFFER_MAX_SIZE: int := 10
  /** |z| of the averaged sample needed before the face is re-evaluated. */
  const FACE_LIMIT: int := 300

  /** The values used when no configuration overrides them. */
  const DEFAULT_SETTINGS: Settings := Settings(OVERFLOW_MIN, OVERFLOW_MAX,
    THRESHOLD_PORTRAIT, THRESHOLD_LANDSCAPE, DISCARD_TIME, AVG_BUFFER_MAX_SIZE)

  /**
   * overFlowCheck: the squared length, divided by 1000, must lie in
   * [minLimit, maxLimit]; that is, the squared length itself must lie in
   * [1000 * minLimit, 1000 * (maxLimit + 1)).
   */
  predicate OverFlow(d: AccelerationData, minLimit: int, maxLimit: int)
    ensures OverFlow(d, minLimit, maxLimit) <==>
      !(1000 * minLimit <= d.x * d.x + d.y * d.y + d.z * d.z < 1000 * (maxLimit + 1))
  {
    var squared := d.x * d.x + d.y * d.y + d.z * d.z;
    MulNonNegative(Abs(d.x), Abs(d.x));
    MulNonNegative(Abs(d.y), Abs(d.y));
    MulNonNegative(Abs(d.z), Abs(d.z));
    assert Abs(d.x) * Abs(d.x) == d.x * d.x && Abs(d.y) * Abs(d.y) == d.y * d.y && Abs(d.z) * Abs(d.z) == d.z * d.z;
    var v := DivTrunc(squared, 1000);
    !(minLimit <= v <= maxLimit)
  }

  predicate IsPortrait(o: Orientation) { o == BottomUp || o == BottomDown }

  predicate IsLandscape(o: Orientation) { o == LeftUp || o == RightUp }

  /** rotateToPortrait: sign of the rotation picks the edge; small rotations keep a portrait edge. */
  function RotateToPortrait(current: Orientation, rotation: int): (r: Orientation)
    ensures IsPortrait(r)
    ensures IsPortrait(current) && Abs(rotation) < SAME_AXIS_LIMIT ==> r == current
    ensures !(IsPortrait(current) && Abs(rotation) < SAME_AXIS_LIMIT) ==> (r == BottomUp <==> rotation >= 0)
  {
    if IsPortrait(current) && Abs(rotation) < SAME_AXIS_LIMIT then current
    else if rotation >= 0 then BottomUp
    else BottomDown
  }

  /** rotateToLandscape: as rotateToPortrait, for the landscape edges. */
  function RotateToLandscape(current: Orientation, rotation: int): (r: Orientation)
    ensures IsLandscape(r)
    ensures IsLandscape(current) && Abs(rotation) < SAME_AXIS_LIMIT ==> r == current
    ensures !(IsLandscape(current) && Abs(rotation) < SAME_AXIS_LIMIT) ==> (r == LeftUp <==> rotation >= 0)
  {
    if IsLandscape(current) && Abs(rotation) < SAME_AXIS_LIMIT then current
    else if rotation >= 0 then LeftUp
    else RightUp
  }

  function Threshold(s: Settings, mode: Mode): int
  {
    if mode == Portrait then s.thresholdPortrait else s.thresholdLandscape
  }

  /**
   * orientationRotation, with the rotator that processTopEdge always pairs
   * with the mode: an edge of the mode's family when |rotation| exceeds the
   * mode's threshold, Undefined otherwise.
   */
  function OrientationRotation(s: Settings, current: Orientation, rotation: int, mode: Mode): (r: Orientation)
    ensures r == Undefined <==> Abs(rotation) <= Threshold(s, mode)
    ensures r != Undefined && mode == Portrait ==> r == RotateToPortrait(current, rotation)
    ensures r != Undefined && mode == Landscape ==> r == RotateToLandscape(current, rotation)
  {
    if Abs(rotation) > Threshold(s, mode) then
      if mode == Portrait then RotateToPortrait(current, rotation) else RotateToLandscape(current, rotation)
    else Undefined
  }

  /**
   * processTopEdge's choice: the mode of the current edge is tried first, the
   * other mode only if the first gives Undefined. The angles are those of the
   * averaged sample in each mode.
   */
  function NewTopEdge(s: Settings, current: Orientation, portraitAngle: int, landscapeAngle: int): (r: Orientation)
    ensures r == Undefined <==> Abs(portraitAngle) <= s.thresholdPortrait && Abs(landscapeAngle) <= s.thresholdLandscape
    ensures r == Undefined || IsPortrait(r) || IsLandscape(r)
    ensures IsPortrait(r) ==> Abs(portraitAngle) > s.thresholdPortrait
    ensures IsLandscape(r) ==> Abs(landscapeAngle) > s.thresholdLandscape
    ensures IsPortrait(current) && Abs(portraitAngle) > s.thresholdPortrait ==> IsPortrait(r)
    ensures !IsPortrait(current) && Abs(landscapeAngle) > s.thresholdLandscape ==> IsLandscape(r)
  {
    if IsPortrait(current) then
      var e := OrientationRotation(s, current, portraitAngle, Portrait);
      if e != Undefined then e else OrientationRotation(s, current, landscapeAngle, Landscape)
    else
      var e := OrientationRotation(s, current, landscapeAngle, Landscape);
      if e != Undefined then e else OrientationRotation(s, current, portraitAngle, Portrait)
  }

  /**
   * processFace's choice for an averaged z: while |z| < FACE_LIMIT the face is kept;
   * otherwise FaceDown needs z >= 0 and an Undefined top edge.
   */
  function NewFace(topEdge: Orientation, face: Orientation, z: int): (r: Orientation)
    ensures Abs(z) < FACE_LIMIT ==> r == face
    ensures Abs(z) >= FACE_LIMIT ==> (r == FaceDown || r == FaceUp)
    ensures Abs(z) >= FACE_LIMIT ==> (r == FaceDown <==> z >= 0 && topEdge == Undefined)
  {
    if Abs(z) < FACE_LIMIT then face
    else if z >= 0 && topEdge == Undefined then FaceDown
    else FaceUp
  }

  /** processOrientation's choice: the top edge when defined, else the face. */
  function NewOrientation(topEdge: Orientation, face: Orientation): (r: Orientation)
    ensures r == Undefined ==> topEdge == Undefined
    ensures topEdge != Undefined ==> r == topEdge
  {
    if topEdge != Undefined then topEdge else face
  }

  /** The loop condition of accDataAvailable's buffer clean-up. */
  predicate MustDrop(buf: seq<AccelerationData>, newest: U64, s: Settings)
  {
    |buf| > s.maxBufferSize || (|buf| > 1 && Sub64(newest, buf[0].timestamp) > s.discardTime)
  }

  /**
   * Drops the oldest samples while the buffer is too long or its oldest
   * sample is more than discardTime older than the newest one.
   */
  function Trim(buf: seq<AccelerationData>, newest: U64, s: Settings): (r: seq<AccelerationData>)
    requires s.maxBufferSize >= 1 && |buf| >= 1
    ensures 1 <= |r| <= |buf| && r[|r| - 1] == buf[|buf| - 1]
    ensures !MustDrop(r, newest, s)
    decreases |buf|
  {
    if MustDrop(buf, newest, s) then Trim(buf[1..], newest, s) else buf
  }

  /** Trim keeps a suffix of the buffer: only the oldest samples are dropped. */
  lemma {:induction false} TrimIsSuffix(buf: seq<AccelerationData>, newest: U64, s: Settings)
    requires s.maxBufferSize >= 1 && |buf| >= 1
    ensures var r := Trim(buf, newest, s); r == buf[|buf| - |r|..]
  {
    if MustDrop(buf, newest, s) {
      TrimIsSuffix(buf[1..], newest, s);
      var r := Trim(buf, newest, s);
      assert buf[1..][|buf| - 1 - |r|..] == buf[|buf| - |r|..];
    }
  }

  /** Trim drops a sample only while the loop condition still holds: no shorter clean-up would do. */
  lemma {:induction false} TrimDropsOnlyWhileNeeded(buf: seq<AccelerationData>, newest: U64, s: Settings, k: nat)
    requires s.maxBufferSize >= 1 && |buf| >= 1
    requires k < |buf| - |Trim(buf, newest, s)|
    ensures MustDrop(buf[k..], newest, s)
  {
    if k > 0 {
      assert MustDrop(buf, newest, s);
      assert buf[k..] == buf[1..][k - 1..];
      TrimDropsOnlyWhileNeeded(buf[1..], newest, s, k - 1);
    }
  }

  /** The interpreter's persistent state. */
  datatype State = State(
    buffer: seq<AccelerationData>,
    topEdge: PoseData, face: PoseData, previousFace: Orientation, orientation: PoseData)

  /** What accDataAvailable propagates on its three sources. */
  datatype Outputs = Outputs(topEdge: Option<PoseData>, face: Option<PoseData>, orientation: Option<PoseData>)

  const INITIAL_POSE: PoseData := PoseData(0, Undefined)
  const INITIAL_STATE: State := State([], INITIAL_POSE, INITIAL_POSE, Undefined, INITIAL_POSE)
  const NO_OUTPUTS: Outputs := Outputs(None, None, None)

  /** processTopEdge: the new top edge, propagated (stamped with the sample's time) only if it changed. */
  function TopEdgeStep(s: Settings, angle: (AccelerationData, Mode) -> int, st: State, m: AccelerationData): (r: (State, Option<PoseData>))
    ensures r.0 == st.(topEdge := r.0.topEdge)
    ensures r.0.topEdge.orientation == NewTopEdge(s, st.topEdge.orientation, angle(m, Portrait), angle(m, Landscape))
    ensures r.1 != None <==> r.0.topEdge.orientation != st.topEdge.orientation
    ensures r.1 != None ==> r.1.value == r.0.topEdge && r.0.topEdge.timestamp == m.timestamp
    ensures r.1 == None ==> r.0 == st
  {
    var edge := NewTopEdge(s, st.topEdge.orientation, angle(m, Portrait), angle(m, Landscape));
    if edge != st.topEdge.orientation then
      var e := PoseData(m.timestamp, edge);
      (st.(topEdge := e), Some(e))
    else (st, None)
  }

  /**
   * processFace: only an averaged |z| >= FACE_LIMIT updates the face; it is
   * propagated only if it differs from the previously propagated face.
   */
  function FaceStep(st: State, m: AccelerationData): (r: (State, Option<PoseData>))
    ensures r.0.buffer == st.buffer && r.0.topEdge == st.topEdge && r.0.orientation == st.orientation
    ensures r.0.face.orientation == NewFace(st.topEdge.orientation, st.face.orientation, m.z)
    ensures Abs(m.z) < FACE_LIMIT ==> r == (st, None)
    ensures r.1 != None <==> Abs(m.z) >= FACE_LIMIT && r.0.face.orientation != st.previousFace
    ensures r.1 != None ==> r.1.value == r.0.face && r.0.face.timestamp == m.timestamp
    ensures r.1 == None ==> r.0.face.timestamp == st.face.timestamp
    ensures r.0.previousFace == (if Abs(m.z) >= FACE_LIMIT then r.0.face.orientation else st.previousFace)
  {
    if Abs(m.z) < FACE_LIMIT then (st, None)
    else
      var f := NewFace(st.topEdge.orientation, st.face.orientation, m.z);
      if f != st.previousFace then
        var pose := PoseData(m.timestamp, f);
        (st.(face := pose, previousFace := f), Some(pose))
      else (st.(face := st.face.(orientation := f)), None)
  }

  /** processOrientation: the new orientation, propagated only if it changed. */
  function OrientationStep(st: State, timestamp: U64): (r: (State, Option<PoseData>))
    ensures r.0 == st.(orientation := r.0.orientation)
    ensures r.0.orientation.orientation == NewOrientation(st.topEdge.orientation, st.face.orientation)
    ensures r.1 != None <==> r.0.orientation.orientation != st.orientation.orientation
    ensures r.1 != None ==> r.1.value == r.0.orientation && r.0.orientation.timestamp == timestamp
    ensures r.1 == None ==> r.0 == st
  {
    var pose := NewOrientation(st.topEdge.orientation, st.face.orientation);
    if pose != st.orientation.orientation then
      var o := PoseData(timestamp, pose);
      (st.(orientation := o), Some(o))
    else (st, None)
  }

  /** accDataAvailable as a function of the old state and the incoming sample. */
  function Step(s: Settings, angle: (AccelerationData, Mode) -> int, st: State, d: AccelerationData): (r: (State, Outputs))
    requires s.maxBufferSize >= 1
    ensures OverFlow(d, s.minLimit, s.maxLimit) ==> r == (st, NO_OUTPUTS)
    ensures !OverFlow(d, s.minLimit, s.maxLimit) ==>
      r.0.orientation.orientation == NewOrientation(r.0.topEdge.orientation, r.0.face.orientation)
    ensures r.1.topEdge != None ==> r.1.topEdge.value == r.0.topEdge
    ensures r.1.face != None ==> r.1.face.value == r.0.face
    ensures r.1.orientation != None ==> r.1.orientation.value == r.0.orientation
  {
    if OverFlow(d, s.minLimit, s.maxLimit) then (st, NO_OUTPUTS)
    else
      var buf := Trim(st.buffer + [d], d.timestamp, s);
      var m := Mean(buf, d.timestamp);
      var (st1, o1) := TopEdgeStep(s, angle, st.(buffer := buf), m);
      var (st2, o2) := FaceStep(st1, m);
      var (st3, o3) := OrientationStep(st2, m.timestamp);
      (st3, Outputs(o1, o2, o3))
  }

  /** The state the interpreter keeps between samples. */
  ghost predicate Consistent(s: Settings, st: State)
  {
    s.maxBufferSize >= 1 && |st.buffer| <= s.maxBufferSize && st.face.orientation == st.previousFace
  }

  lemma InitialConsistent(s: Settings)
    requires s.maxBufferSize >= 1
    ensures Consistent(s, INITIAL_STATE)
  {
  }

  /** A sample that fails the overflow check changes nothing and propagates nothing. */
  lemma OverflowDiscarded(s: Settings, angle: (AccelerationData, Mode) -> int, st: State, d: AccelerationData)
    requires s.maxBufferSize >= 1 && OverFlow(d, s.minLimit, s.maxLimit)
    ensures Step(s, angle, st, d) == (st, NO_OUTPUTS)
  {
  }

  /**
   * After an accepted sample the buffer ends with it, holds at most
   * maxBufferSize samples, and its oldest sample is within discardTime of the
   * newest unless the newest is alone; the state stays consistent.
   */
  lemma StepBuffer(s: Settings, angle: (AccelerationData, Mode) -> int, st: State, d: AccelerationData)
    requires Consistent(s, st) && !OverFlow(d, s.minLimit, s.maxLimit)
    ensures var st' := Step(s, angle, st, d).0;
      && Consistent(s, st')
      && 1 <= |st'.buffer| <= s.maxBufferSize
      && st'.buffer[|st'.buffer| - 1] == d
      && (|st'.buffer| == 1 || Sub64(d.timestamp, st'.buffer[0].timestamp) <= s.discardTime)
  {
    var buf := Trim(st.buffer + [d], d.timestamp, s);
    assert buf[|buf| - 1] == (st.buffer + [d])[|st.buffer|];
  }

  /** Each of the three poses is propagated exactly when its value changes. */
  lemma StepPropagatesOnChange(s: Settings, angle: (AccelerationData, Mode) -> int, st: State, d: AccelerationData)
    requires Consistent(s, st) && !OverFlow(d, s.minLimit, s.maxLimit)
    ensures var (st', out) := Step(s, angle, st, d);
      && (out.topEdge != None <==> st'.topEdge.orientation != st.topEdge.orientation)
      && (out.face != None <==> st'.face.orientation != st.face.orientation)
      && (out.orientation != None <==> st'.orientation.orientation != st.orientation.orientation)
      && (out.topEdge != None ==> out.topEdge.value == st'.topEdge && st'.topEdge.timestamp == d.timestamp)
      && (out.face != None ==> out.face.value == st'.face && st'.face.timestamp == d.timestamp)
      && (out.orientation != None ==> out.orientation.value == st'.orientation && st'.orientation.timestamp == d.timestamp)
  {
  }

  /** The new orientation is the new top edge when defined, else the new face. */
  lemma StepOrientation(s: Settings, angle: (AccelerationData, Mode) -> int, st: State, d: AccelerationData)
    requires Consistent(s, st) && !OverFlow(d, s.minLimit, s.maxLimit)
    ensures var st' := Step(s, angle, st, d).0;
      st'.orientation.orientation == NewOrientation(st'.topEdge.orientation, st'.face.orientation)
  {
  }

  /**
   * A sample arriving at an empty buffer, or more than discardTime after the
   * single buffered sample, is classified on its own.
   */
  lemma StepAlone(s: Settings, angle: (AccelerationData, Mode) -> int, st: State, d: AccelerationData)
    requires Consistent(s, st) && !OverFlow(d, s.minLimit, s.maxLimit)
    requires st.buffer == [] || (|st.buffer| == 1 && Sub64(d.timestamp, st.buffer[0].timestamp) > s.discardTime)
    ensures var r := Step(s, angle, st, d);
      var edge := NewTopEdge(s, st.topEdge.orientation, angle(d, Portrait), angle(d, Landscape));
      && r.0.buffer == [d]
      && r.0.topEdge.orientation == edge
      && r.1.topEdge == (if edge != st.topEdge.orientation then Some(PoseData(d.timestamp, edge)) else None)
  {
    TrimAlone(s, st.buffer, d);
    MeanOfOne(d);
  }

  lemma TrimAlone(s: Settings, buf: seq<AccelerationData>, d: AccelerationData)
    requires s.maxBufferSize >= 1
    requires buf == [] || (|buf| == 1 && Sub64(d.timestamp, buf[0].timestamp) > s.discardTime)
    ensures Trim(buf + [d], d.timestamp, s) == [d]
  {
    assert Trim([d], d.timestamp, s) == [d];
    if buf != [] {
      assert MustDrop(buf + [d], d.timestamp, s);
      assert (buf + [d])[1..] == [d];
    }
  }

  /** StepAlone, for a sample that moves the top edge to `edge`. */
  lemma StepAloneTo(s: Settings, angle: (AccelerationData, Mode) -> int, st: State, d: AccelerationData, edge: Orientation)
    returns (st': State)
    requires Consistent(s, st) && !OverFlow(d, s.minLimit, s.maxLimit)
    requires st.buffer == [] || (|st.buffer| == 1 && Sub64(d.timestamp, st.buffer[0].timestamp) > s.discardTime)
    requires NewTopEdge(s, st.topEdge.orientation, angle(d, Portrait), angle(d, Landscape)) == edge
    requires edge != st.topEdge.orientation
    ensures st' == Step(s, angle, st, d).0
    ensures Step(s, angle, st, d).1.topEdge == Some(PoseData(d.timestamp, edge))
    ensures Consistent(s, st') && st'.buffer == [d] && st'.topEdge.orientation == edge
  {
    StepAlone(s, angle, st, d);
    StepBuffer(s, angle, st, d);
    st' := Step(s, angle, st, d).0;
  }

  /** The first sample of the filter test, along -x, turns the undefined edge to RightUp. */
  lemma FilterTestRightUp(angle: (AccelerationData, Mode) -> int) returns (s1: State)
    requires angle(TimedXyzData(0, -981, 0, 0), Landscape) == -90
    ensures s1 == Step(DEFAULT_SETTINGS, angle, INITIAL_STATE, TimedXyzData(0, -981, 0, 0)).0
    ensures Step(DEFAULT_SETTINGS, angle, INITIAL_STATE, TimedXyzData(0, -981, 0, 0)).1.topEdge
      == Some(PoseData(0, RightUp))
    ensures Consistent(DEFAULT_SETTINGS, s1) && s1.buffer == [TimedXyzData(0, -981, 0, 0)]
    ensures s1.topEdge.orientation == RightUp
  {
    var s, d1 := DEFAULT_SETTINGS, TimedXyzData(0, -981, 0, 0);
    InitialConsistent(s);
    assert OrientationRotation(s, Undefined, angle(d1, Landscape), Landscape) == RightUp;
    s1 := StepAloneTo(s, angle, INITIAL_STATE, d1, RightUp);
  }

  /** The second sample, along +x 10 s later, turns RightUp to LeftUp. */
  lemma FilterTestLeftUp(angle: (AccelerationData, Mode) -> int, s1: State) returns (s2: State)
    requires Consistent(DEFAULT_SETTINGS, s1) && s1.buffer == [TimedXyzData(0, -981, 0, 0)]
    requires s1.topEdge.orientation == RightUp
    requires angle(TimedXyzData(10000000, 981, 0, 0), Landscape) == 90
    ensures s2 == Step(DEFAULT_SETTINGS, angle, s1, TimedXyzData(10000000, 981, 0, 0)).0
    ensures Step(DEFAULT_SETTINGS, angle, s1, TimedXyzData(10000000, 981, 0, 0)).1.topEdge
      == Some(PoseData(10000000, LeftUp))
    ensures Consistent(DEFAULT_SETTINGS, s2) && s2.buffer == [TimedXyzData(10000000, 981, 0, 0)]
    ensures s2.topEdge.orientation == LeftUp
  {
    var s, d2 := DEFAULT_SETTINGS, TimedXyzData(10000000, 981, 0, 0);
    assert Sub64(d2.timestamp, s1.buffer[0].timestamp) > s.discardTime;
    assert OrientationRotation(s, RightUp, angle(d2, Landscape), Landscape) == LeftUp;
    s2 := StepAloneTo(s, angle, s1, d2, LeftUp);
  }

  /**
   * The third sample, along -y, has no landscape tilt, so LeftUp falls back
   * on the portrait edge BottomDown.
   */
  lemma FilterTestBottomDown(angle: (AccelerationData, Mode) -> int, s2: State) returns (s3: State)
    requires Consistent(DEFAULT_SETTINGS, s2) && s2.buffer == [TimedXyzData(10000000, 981, 0, 0)]
    requires s2.topEdge.orientation == LeftUp
    requires angle(TimedXyzData(20000000, 0, -981, 0), Landscape) == 0
    requires angle(TimedXyzData(20000000, 0, -981, 0), Portrait) == -90
    ensures s3 == Step(DEFAULT_SETTINGS, angle, s2, TimedXyzData(20000000, 0, -981, 0)).0
    ensures Step(DEFAULT_SETTINGS, angle, s2, TimedXyzData(20000000, 0, -981, 0)).1.topEdge
      == Some(PoseData(20000000, BottomDown))
    ensures Consistent(DEFAULT_SETTINGS, s3) && s3.buffer == [TimedXyzData(20000000, 0, -981, 0)]
    ensures s3.topEdge.orientation == BottomDown
  {
    var s, d3 := DEFAULT_SETTINGS, TimedXyzData(20000000, 0, -981, 0);
    assert Sub64(d3.timestamp, s2.buffer[0].timestamp) > s.discardTime;
    assert OrientationRotation(s, LeftUp, angle(d3, Landscape), Landscape) == Undefined;
    assert OrientationRotation(s, LeftUp, angle(d3, Portrait), Portrait) == BottomDown;
    s3 := StepAloneTo(s, angle, s2, d3, BottomDown);
  }

  /** The fourth sample, along +y, turns BottomDown to BottomUp. */
  lemma FilterTestBottomUp(angle: (AccelerationData, Mode) -> int, s3: State)
    requires Consistent(DEFAULT_SETTINGS, s3) && s3.buffer == [TimedXyzData(20000000, 0, -981, 0)]
    requires s3.topEdge.orientation == BottomDown
    requires angle(TimedXyzData(30000000, 0, 981, 0), Portrait) == 90
    ensures Step(DEFAULT_SETTINGS, angle, s3, TimedXyzData(30000000, 0, 981, 0)).1.topEdge
      == Some(PoseData(30000000, BottomUp))
  {
    var s, d4 := DEFAULT_SETTINGS, TimedXyzData(30000000, 0, 981, 0);
    assert Sub64(d4.timestamp, s3.buffer[0].timestamp) > s.discardTime;
    assert OrientationRotation(s, BottomDown, angle(d4, Portrait), Portrait) == BottomUp;
    var s4 := StepAloneTo(s, angle, s3, d4, BottomUp);
  }

  /**
   * The four samples of the filter test, one every 10 s along -x, +x, -y, +y,
   * where the tilt angle of an axis-aligned vector is +-90 degrees on its own
   * axis and 0 on the other, give RightUp, LeftUp, BottomDown, BottomUp.
   */
  lemma FilterTestSequence(angle: (AccelerationData, Mode) -> int) returns (s1: State, s2: State, s3: State)
    requires angle(TimedXyzData(0, -981, 0, 0), Landscape) == -90
    requires angle(TimedXyzData(10000000, 981, 0, 0), Landscape) == 90
    requires angle(TimedXyzData(20000000, 0, -981, 0), Landscape) == 0
    requires angle(TimedXyzData(20000000, 0, -981, 0), Portrait) == -90
    requires angle(TimedXyzData(30000000, 0, 981, 0), Portrait) == 90
    ensures s1 == Step(DEFAULT_SETTINGS, angle, INITIAL_STATE, TimedXyzData(0, -981, 0, 0)).0
    ensures Step(DEFAULT_SETTINGS, angle, INITIAL_STATE, TimedXyzData(0, -981, 0, 0)).1.topEdge
      == Some(PoseData(0, RightUp))
    ensures s2 == Step(DEFAULT_SETTINGS, angle, s1, TimedXyzData(10000000, 981, 0, 0)).0
    ensures Step(DEFAULT_SETTINGS, angle, s1, TimedXyzData(10000000, 981, 0, 0)).1.topEdge
      == Some(PoseData(10000000, LeftUp))
    ensures s3 == Step(DEFAULT_SETTINGS, angle, s2, TimedXyzData(20000000, 0, -981, 0)).0
    ensures Step(DEFAULT_SETTINGS, angle, s2, TimedXyzData(20000000, 0, -981, 0)).1.topEdge
      == Some(PoseData(20000000, BottomDown))
    ensures Step(DEFAULT_SETTINGS, angle, s3, TimedXyzData(30000000, 0, 981, 0)).1.topEdge
      == Some(PoseData(30000000, BottomUp))
  {
    s1 := FilterTestRightUp(angle);
    s2 := FilterTestLeftUp(angle, s1);
    s3 := FilterTestBottomDown(angle, s2);
    FilterTestBottomUp(angle, s3);
  }

  /**
   * The filter object. `angle` stands for orientationCheck (the rounded atan
   * tilt in degrees), which the model leaves uninterpreted.
   */
  class Interpreter {
    const settings: Settings
    const angle: (AccelerationData, Mode) -> int
    var dataBuffer: seq<AccelerationData>
    var topEdge: PoseData
    var face: PoseData
    var previousFace: Orientation
    var orientationData: PoseData

    ghost function Current(): State
      reads this
    {
      State(dataBuffer, topEdge, face, previousFace, orientationData)
    }

    ghost predicate Valid()
      reads this
    {
      Consistent(settings, Current())
    }

    constructor (settings: Settings, angle: (AccelerationData, Mode) -> int)
      requires settings.maxBufferSize >= 1
      ensures Valid() && this.settings == settings && this.angle == angle
      ensures Current() == INITIAL_STATE
    {
      this.settings := settings;
      this.angle := angle;
      dataBuffer := [];
      topEdge := INITIAL_POSE;
      face := INITIAL_POSE;
      previousFace := Undefined;
      orientationData := INITIAL_POSE;
    }

    /** accDataAvailable: drop, or buffer, average and classify one sample. */
    method AccDataAvailable(d: AccelerationData) returns (out: Outputs)
      requires Valid()
      modifies this
      ensures Valid()
      ensures (Current(), out) == Step(settings, angle, old(Current()), d)
    {
      if OverFlow(d, settings.minLimit, settings.maxLimit) {
        return NO_OUTPUTS;
      }
      ghost var st0 := Current();
      dataBuffer := dataBuffer + [d];
      TrimBuffer(d.timestamp);
      var x, y, z := SumAxes(dataBuffer);
      var n := |dataBuffer|;
      var m := TimedXyzData(d.timestamp, DivTrunc(x, n), DivTrunc(y, n), DivTrunc(z, n));
      ghost var st1 := Current();
      assert st1 == st0.(buffer := Trim(st0.buffer + [d], d.timestamp, settings));
      assert m == Mean(st1.buffer, d.timestamp);
      var e := ProcessTopEdge(m);
      ghost var st2 := Current();
      var f := ProcessFace(m);
      ghost var st3 := Current();
      var o := ProcessOrientation(m.timestamp);
      out := Outputs(e, f, o);
      assert (st2, e) == TopEdgeStep(settings, angle, st1, m);
      assert (st3, f) == FaceStep(st2, m);
      assert (Current(), o) == OrientationStep(st3, m.timestamp);
    }

    /** The clean-up loop of accDataAvailable. */
    method TrimBuffer(newest: U64)
      requires settings.maxBufferSize >= 1 && |dataBuffer| >= 1
      modifies this`dataBuffer
      ensures dataBuffer == Trim(old(dataBuffer), newest, settings)
    {
      ghost var all := dataBuffer;
      while MustDrop(dataBuffer, newest, settings)
        invariant |dataBuffer| >= 1
        invariant Trim(dataBuffer, newest, settings) == Trim(all, newest, settings)
        decreases |dataBuffer|
      {
        dataBuffer := dataBuffer[1..];
      }
    }

    method ProcessTopEdge(m: AccelerationData) returns (e: Option<PoseData>)
      modifies this`topEdge
      ensures (Current(), e) == TopEdgeStep(settings, angle, old(Current()), m)
    {
      var edge := NewTopEdge(settings, topEdge.orientation, angle(m, Portrait), angle(m, Landscape));
      e := None;
      if topEdge.orientation != edge {
        topEdge := PoseData(m.timestamp, edge);
        e := Some(topEdge);
      }
    }

    method ProcessFace(m: AccelerationData) returns (f: Option<PoseData>)
      modifies this`face, this`previousFace
      ensures (Current(), f) == FaceStep(old(Current()), m)
    {
      f := None;
      if Abs(m.z) >= FACE_LIMIT {
        face := face.(orientation := NewFace(topEdge.orientation, face.orientation, m.z));
        if face.orientation != previousFace {
          previousFace := face.orientation;
          face := face.(timestamp := m.timestamp);
          f := Some(face);
        }
      }
    }

    method ProcessOrientation(timestamp: U64) returns (o: Option<PoseData>)
      modifies this`orientationData
      ensures (Current(), o) == OrientationStep(old(Current()), timestamp)
    {
      var pose := NewOrientation(topEdge.orientation, face.orientation);
      o := None;
      if pose != orientationData.orientation {
        orientationData := PoseData(timestamp, pose);
        o := Some(orientationData);
      }
    }
  }
}
