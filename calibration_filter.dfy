// Model of CalibrationFilter (chains/magcalibrationchain): a hard-iron
// correction for magnetometer samples. It tracks the range [min, max] seen on
// each axis and reports the centre of each range, with a calibration level
// that counts the axes whose centre did not move. The three ranges are the
// list minMaxList; a minimum x of 0 is read as "no sample yet".
module CalibrationFilter {
  import opened Common
  import opened XyzData

  type Range = (int, int)

  datatype CalibratedMagneticFieldData = CalibratedMagneticFieldData(
    timestamp: U64, x: int, y: int, z: int, rx: int, ry: int, rz: int, level: int)

  /** The outcome of magDataAvailable: a calibrated sample, or an index past the end of minMaxList. */
  datatype Outcome = Emitted(data: CalibratedMagneticFieldData) | ListIndexOutOfRange

  /** The list the constructor builds: three empty (0, 0) ranges. */
  const INITIAL_RANGES: seq<Range> := [(0, 0), (0, 0), (0, 0)]

  function AxisOf(i: int): Axis
  {
    if i == 0 then X else if i == 1 then Y else Z
  }

  /** The ranges after a sample: reset to the sample while min x is 0, otherwise widened. */
  function NewRanges(ranges: seq<Range>, d: TimedXyzData): (r: seq<Range>)
    requires |ranges| == 3
    ensures |r| == 3
    ensures forall i :: 0 <= i < 3 ==> r[i].0 <= Component(d, AxisOf(i)) <= r[i].1
    ensures ranges[0].0 == 0 ==> forall i :: 0 <= i < 3 ==> r[i] == (Component(d, AxisOf(i)), Component(d, AxisOf(i)))
    ensures ranges[0].0 != 0 ==> forall i :: 0 <= i < 3 ==>
      r[i] == (Min(ranges[i].0, Component(d, AxisOf(i))), Max(ranges[i].1, Component(d, AxisOf(i))))
  {
    if ranges[0].0 == 0 then [(d.x, d.x), (d.y, d.y), (d.z, d.z)]
    else [(Min(ranges[0].0, d.x), Max(ranges[0].1, d.x)),
          (Min(ranges[1].0, d.y), Max(ranges[1].1, d.y)),
          (Min(ranges[2].0, d.z), Max(ranges[2].1, d.z))]
  }

  /** Widening keeps every earlier range inside the new one. */
  lemma WideningContainsOldRanges(ranges: seq<Range>, d: TimedXyzData)
    requires |ranges| == 3 && ranges[0].0 != 0
    ensures var r := NewRanges(ranges, d);
      forall i :: 0 <= i < 3 ==> r[i].0 <= ranges[i].0 && ranges[i].1 <= r[i].1
  {
  }

  /** The centre of a range, as the qreal (min + max) * .5. */
  function Centre(p: Range): (c: real)
    ensures p.0 <= p.1 ==> p.0 as real <= c <= p.1 as real
    ensures c + c == (p.0 + p.1) as real
  {
    (p.0 + p.1) as real * 0.5
  }

  /** The calibration level: how many of the three centres equal the previous ones. */
  function Level(prev: (real, real, real), next: (real, real, real)): (level: int)
    ensures 0 <= level <= 3
    ensures level == 3 <==> prev == next
    ensures level == 0 <==> prev.0 != next.0 && prev.1 != next.1 && prev.2 != next.2
  {
    (if prev.0 == next.0 then 1 else 0) + (if prev.1 == next.1 then 1 else 0) + (if prev.2 == next.2 then 1 else 0)
  }

  /** The filter state: the ranges, the last centres and the last level. */
  datatype State = State(ranges: seq<Range>, centres: (real, real, real), calLevel: int)

  /** magDataAvailable as a function of the state and the incoming sample. */
  function Step(st: State, d: TimedXyzData): (r: (State, Outcome))
    ensures |st.ranges| < 3 ==> r == (st, ListIndexOutOfRange)
    ensures |st.ranges| >= 3 ==> r.1.Emitted? && |r.0.ranges| == |st.ranges| && 0 <= r.0.calLevel <= 3
  {
    if |st.ranges| < 3 then (st, ListIndexOutOfRange)
    else
      var ranges := NewRanges(st.ranges[..3], d) + st.ranges[3..];
      var centres := (Centre(ranges[0]), Centre(ranges[1]), Centre(ranges[2]));
      var level := Level(st.centres, centres);
      (State(ranges, centres, level),
       Emitted(CalibratedMagneticFieldData(d.timestamp,
         TruncToInt(centres.0), TruncToInt(centres.1), TruncToInt(centres.2), d.x, d.y, d.z, level)))
  }

  /**
   * An emitted sample carries the raw values and the timestamp of the input;
   * its calibrated values are the truncated centres of ranges that contain
   * the raw values; its level is in 0..3.
   */
  lemma StepOutput(st: State, d: TimedXyzData)
    requires |st.ranges| == 3
    ensures var (st', out) := Step(st, d);
      && out.Emitted?
      && out.data.timestamp == d.timestamp
      && out.data.rx == d.x && out.data.ry == d.y && out.data.rz == d.z
      && (forall i :: 0 <= i < 3 ==> st'.ranges[i].0 <= Component(d, AxisOf(i)) <= st'.ranges[i].1)
      && st'.ranges[0].0 <= out.data.x <= st'.ranges[0].1
      && st'.ranges[1].0 <= out.data.y <= st'.ranges[1].1
      && st'.ranges[2].0 <= out.data.z <= st'.ranges[2].1
      && out.data.level == st'.calLevel && 0 <= st'.calLevel <= 3
  {
    assert st.ranges[..3] == st.ranges;
    var (st', out) := Step(st, d);
    forall i | 0 <= i < 3
      ensures st'.ranges[i].0 as real <= Centre(st'.ranges[i]) <= st'.ranges[i].1 as real
    {
    }
  }

  /**
   * A sample that repeats the previous one leaves the centres in place and
   * gives level 3, unless its x of 0 made the minimum x 0, which restarts the
   * ranges from that sample.
   */
  lemma RepeatedSampleIsCalibrated(st: State, d: TimedXyzData)
    requires |st.ranges| == 3 && d.x != 0
    ensures var st1 := Step(st, d).0; Step(st1, d).0.calLevel == 3
  {
    assert st.ranges[..3] == st.ranges;
    var st1 := Step(st, d).0;
    assert st1.ranges[..3] == st1.ranges;
    var r2 := NewRanges(st1.ranges, d);
    assert forall i :: 0 <= i < 3 ==> r2[i] == st1.ranges[i];
  }

  /** As written, dropCalibration empties the list, so the next sample indexes past its end. */
  lemma DropThenSampleAsWritten(st: State, d: TimedXyzData)
    ensures Step(State([], st.centres, 0), d) == (State([], st.centres, 0), ListIndexOutOfRange)
  {
  }

  /** With the corrected reset the next sample restarts calibration from that sample. */
  lemma DropThenSampleRestarts(st: State, d: TimedXyzData)
    ensures var (st', out) := Step(State(INITIAL_RANGES, st.centres, 0), d);
      && out.Emitted?
      && st'.ranges == [(d.x, d.x), (d.y, d.y), (d.z, d.z)]
      && out.data.x == d.x && out.data.y == d.y && out.data.z == d.z
  {
    assert INITIAL_RANGES[..3] == INITIAL_RANGES && INITIAL_RANGES[3..] == [];
    var r := NewRanges(INITIAL_RANGES, d);
    assert r == [(d.x, d.x), (d.y, d.y), (d.z, d.z)];
    assert Centre((d.x, d.x)) == d.x as real;
    assert Centre((d.y, d.y)) == d.y as real;
    assert Centre((d.z, d.z)) == d.z as real;
  }

  class Filter {
    var minMaxList: seq<Range>
    var oldX: real
    var oldY: real
    var oldZ: real
    var calLevel: int

    ghost function Current(): State
      reads this
    {
      State(minMaxList, (oldX, oldY, oldZ), calLevel)
    }

    /**
     * The constructor leaves oldX, oldY and oldZ uninitialised; the model
     * takes their initial values as parameters.
     */
    constructor (oldX: real, oldY: real, oldZ: real)
      ensures Current() == State(INITIAL_RANGES, (oldX, oldY, oldZ), 0)
    {
      minMaxList := INITIAL_RANGES;
      this.oldX, this.oldY, this.oldZ := oldX, oldY, oldZ;
      calLevel := 0;
    }

    /** The replace() calls of magDataAvailable: reset or widen the three ranges. */
    method UpdateRanges(d: TimedXyzData)
      requires |minMaxList| >= 3
      modifies this`minMaxList
      ensures minMaxList == NewRanges(old(minMaxList)[..3], d) + old(minMaxList)[3..]
    {
      ghost var ranges := NewRanges(minMaxList[..3], d) + minMaxList[3..];
      if minMaxList[0].0 == 0 {
        minMaxList := minMaxList[0 := (d.x, d.x)][1 := (d.y, d.y)][2 := (d.z, d.z)];
      } else {
        minMaxList := minMaxList[0 := (Min(minMaxList[0].0, d.x), Max(minMaxList[0].1, d.x))]
                                [1 := (Min(minMaxList[1].0, d.y), Max(minMaxList[1].1, d.y))]
                                [2 := (Min(minMaxList[2].0, d.z), Max(minMaxList[2].1, d.z))];
      }
      assert |minMaxList| == |ranges|;
      assert forall i :: 0 <= i < |ranges| ==> minMaxList[i] == ranges[i];
    }

    method MagDataAvailable(d: TimedXyzData) returns (out: Outcome)
      modifies this
      ensures (Current(), out) == Step(old(Current()), d)
    {
      ghost var st := Current();
      if |minMaxList| < 3 {
        return ListIndexOutOfRange;
      }
      UpdateRanges(d);
      ghost var ranges := minMaxList;
      var newX := Centre(minMaxList[0]);
      var newY := Centre(minMaxList[1]);
      var newZ := Centre(minMaxList[2]);
      calLevel := 0;
      if oldX == newX { calLevel := calLevel + 1; }
      if oldY == newY { calLevel := calLevel + 1; }
      if oldZ == newZ { calLevel := calLevel + 1; }
      assert calLevel == Level(st.centres, (newX, newY, newZ));
      oldX, oldY, oldZ := newX, newY, newZ;
      out := Emitted(CalibratedMagneticFieldData(d.timestamp,
        TruncToInt(oldX), TruncToInt(oldY), TruncToInt(oldZ), d.x, d.y, d.z, calLevel));
      assert Step(st, d) == (State(ranges, (newX, newY, newZ), calLevel), out);
    }

    /** dropCalibration as written: the level is cleared and the list emptied. */
    method DropCalibrationAsWritten()
      modifies this
      ensures Current() == old(Current()).(ranges := [], calLevel := 0)
    {
      calLevel := 0;
      minMaxList := [];
    }

    /** dropCalibration as intended: the list goes back to the constructor's three empty ranges. */
    method DropCalibration()
      modifies this
      ensures Current() == old(Current()).(ranges := INITIAL_RANGES, calLevel := 0)
    {
      calLevel := 0;
      minMaxList := INITIAL_RANGES;
    }
  }
}
