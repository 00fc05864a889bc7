// Model of the example client's GestureHandler
// (examples/client/gesturehandler.cpp): key 199 switches gesture detection
// on and key 200 off; while on, each accelerometer sample is compared with
// the previous one and a change of y or z beyond its threshold signals a
// volume or zoom gesture.
module GestureHandler {
  /** The signals the handler emits. */
  datatype Signal =
    | GestureDetectionActivated
    | GestureDetectionDeactivated
    | KeyPressed(key: int)
    | VolumeIncreased
    | VolumeDecreased
    | ZoomIncreased
    | ZoomDecreased

  const KEY_ACTIVATE: int := 199
  const KEY_DEACTIVATE: int := 200

  /** The handler's fields and the signals emitted so far. */
  datatype State = State(
    activated: bool, validHist: bool, yThreshold: int, zThreshold: int,
    prevY: int, prevZ: int, emitted: seq<Signal>)

  /** GestureHandler(yThreshold, zThreshold) */
  function Initial(yThreshold: int, zThreshold: int): (s: State)
    ensures !s.activated && !s.validHist && s.emitted == []
    ensures s.yThreshold == yThreshold && s.zThreshold == zThreshold && s.prevY == 0 && s.prevZ == 0
  {
    State(false, false, yThreshold, zThreshold, 0, 0, [])
  }

  /**
   * The gesture for one axis: a drop by more than the threshold is an
   * increase, a rise by more than it a decrease, and no gesture otherwise;
   * never both.
   */
  function AxisGesture(prev: int, value: int, threshold: int, increase: Signal, decrease: Signal): (r: seq<Signal>)
    requires increase != decrease
    ensures r == [increase] <==> prev - value > threshold
    ensures r == [decrease] <==> !(prev - value > threshold) && value - prev > threshold
    ensures r == [] <==> !(prev - value > threshold) && !(value - prev > threshold)
  {
    var diff := prev - value;
    if diff > threshold then [increase]
    else if -diff > threshold then [decrease]
    else []
  }

  /** handleData(Key): 199 activates, 200 deactivates and drops the history, any other key is forwarded. */
  function KeyStep(s: State, key: int): (r: State)
    ensures key == KEY_ACTIVATE ==> r == s.(activated := true, emitted := s.emitted + [GestureDetectionActivated])
    ensures key == KEY_DEACTIVATE ==>
      r == s.(activated := false, validHist := false, emitted := s.emitted + [GestureDetectionDeactivated])
    ensures key != KEY_ACTIVATE && key != KEY_DEACTIVATE ==> r == s.(emitted := s.emitted + [KeyPressed(key)])
    ensures r.prevY == s.prevY && r.prevZ == s.prevZ
  {
    if key == KEY_ACTIVATE then s.(activated := true, emitted := s.emitted + [GestureDetectionActivated])
    else if key == KEY_DEACTIVATE then
      s.(activated := false, validHist := false, emitted := s.emitted + [GestureDetectionDeactivated])
    else s.(emitted := s.emitted + [KeyPressed(key)])
  }

  /**
   * handleData(XYZ): ignored while inactive; the first active sample only
   * seeds the history; later ones emit the y gesture, then the z gesture;
   * every active sample becomes the history.
   */
  function SampleStep(s: State, y: int, z: int): (r: State)
    ensures !s.activated ==> r == s
    ensures s.activated && !s.validHist ==> r == s.(validHist := true, prevY := y, prevZ := z)
    ensures s.activated && s.validHist ==>
      r == s.(prevY := y, prevZ := z, emitted := s.emitted +
        AxisGesture(s.prevY, y, s.yThreshold, VolumeIncreased, VolumeDecreased) +
        AxisGesture(s.prevZ, z, s.zThreshold, ZoomIncreased, ZoomDecreased))
    ensures s.activated ==> r.activated && r.validHist && r.prevY == y && r.prevZ == z
    ensures |s.emitted| <= |r.emitted| <= |s.emitted| + 2
  {
    if !s.activated then s
    else if !s.validHist then s.(validHist := true, prevY := y, prevZ := z)
    else
      s.(prevY := y, prevZ := z, emitted := s.emitted +
        AxisGesture(s.prevY, y, s.yThreshold, VolumeIncreased, VolumeDecreased) +
        AxisGesture(s.prevZ, z, s.zThreshold, ZoomIncreased, ZoomDecreased))
  }

  /** After switching off and on again, the next sample emits nothing: the old history is gone. */
  lemma ReactivationDiscardsHistory(s: State, y: int, z: int)
    ensures var r := SampleStep(KeyStep(KeyStep(s, KEY_DEACTIVATE), KEY_ACTIVATE), y, z);
      r.emitted == s.emitted + [GestureDetectionDeactivated, GestureDetectionActivated] && r.validHist
  {
    var t := KeyStep(KeyStep(s, KEY_DEACTIVATE), KEY_ACTIVATE);
    assert t.emitted == s.emitted + [GestureDetectionDeactivated] + [GestureDetectionActivated];
    assert !t.validHist && t.activated;
  }

  /**
   * With a non-negative threshold, a move from p to q is an increase
   * exactly when the move back from q to p is a decrease.
   */
  lemma GestureReverses(p: int, q: int, threshold: int)
    requires threshold >= 0
    ensures AxisGesture(p, q, threshold, VolumeIncreased, VolumeDecreased) == [VolumeIncreased] <==>
      AxisGesture(q, p, threshold, VolumeIncreased, VolumeDecreased) == [VolumeDecreased]
  {
  }

  class Handler {
    var activated: bool
    var validHist: bool
    const yThreshold: int
    const zThreshold: int
    var prevY: int
    var prevZ: int
    /** The signals emitted so far. */
    var emitted: seq<Signal>

    ghost function Snapshot(): State
      reads this
    {
      State(activated, validHist, yThreshold, zThreshold, prevY, prevZ, emitted)
    }

    constructor (yThreshold: int, zThreshold: int)
      ensures Snapshot() == Initial(yThreshold, zThreshold)
    {
      activated, validHist := false, false;
      this.yThreshold, this.zThreshold := yThreshold, zThreshold;
      prevY, prevZ := 0, 0;
      emitted := [];
    }

    /** handleData(const Key&) */
    method HandleKey(key: int)
      modifies this
      ensures Snapshot() == KeyStep(old(Snapshot()), key)
    {
      if key == 199 {
        emitted := emitted + [GestureDetectionActivated];
        activated := true;
      } else if key == 200 {
        emitted := emitted + [GestureDetectionDeactivated];
        activated, validHist := false, false;
      } else {
        emitted := emitted + [KeyPressed(key)];
      }
    }

    /** handleData(const XYZ&); the x value is not used. */
    method HandleSample(y: int, z: int)
      modifies this
      ensures Snapshot() == SampleStep(old(Snapshot()), y, z)
    {
      if activated {
        if validHist {
          var yDiff := prevY - y;
          if yDiff > yThreshold {
            emitted := emitted + [VolumeIncreased];
          } else if -yDiff > yThreshold {
            emitted := emitted + [VolumeDecreased];
          }
          var zDiff := prevZ - z;
          if zDiff > zThreshold {
            emitted := emitted + [ZoomIncreased];
          } else if -zDiff > zThreshold {
            emitted := emitted + [ZoomDecreased];
          }
        } else {
          validHist := true;
        }
        prevY := y;
        prevZ := z;
      }
    }
  }
}
