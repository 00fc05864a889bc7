// The three-axis sample that most sensorfw filters exchange, and the
// per-axis sums and truncating means that the averaging filters compute.
// TimedXyzData itself is declared in datatypes/genericdata.h, which is not
// part of this model; its fields are a quint64 timestamp and three ints.
module XyzData {
  import opened Common

  datatype TimedXyzData = TimedXyzData(timestamp: U64, x: int, y: int, z: int)

  datatype Axis = X | Y | Z

  function Component(d: TimedXyzData, a: Axis): int
  {
    match a
    case X => d.x
    case Y => d.y
    case Z => d.z
  }

  function AxisSum(buf: seq<TimedXyzData>, a: Axis): int
  {
    if buf == [] then 0 else AxisSum(buf[..|buf| - 1], a) + Component(buf[|buf| - 1], a)
  }

  /**
   * The averaged sample: per-axis truncating mean, stamped with the newest
   * timestamp. |buf| times each axis is that axis' sum rounded toward zero to
   * a multiple of |buf|.
   */
  function Mean(buf: seq<TimedXyzData>, timestamp: U64): (r: TimedXyzData)
    requires |buf| >= 1
    ensures r.timestamp == timestamp
    ensures forall a: Axis :: AxisSum(buf, a) >= 0 ==>
      0 <= |buf| * Component(r, a) <= AxisSum(buf, a) < |buf| * Component(r, a) + |buf|
    ensures forall a: Axis :: AxisSum(buf, a) < 0 ==>
      |buf| * Component(r, a) - |buf| < AxisSum(buf, a) <= |buf| * Component(r, a) <= 0
  {
    TimedXyzData(timestamp,
      DivTrunc(AxisSum(buf, X), |buf|), DivTrunc(AxisSum(buf, Y), |buf|), DivTrunc(AxisSum(buf, Z), |buf|))
  }

  /** A buffer holding one sample averages to that sample. */
  lemma MeanOfOne(d: TimedXyzData)
    ensures Mean([d], d.timestamp) == d
  {
    forall a: Axis ensures AxisSum([d], a) == Component(d, a) {
      assert [d][..0] == [];
    }
  }

  lemma {:induction false} AxisSumBounds(buf: seq<TimedXyzData>, a: Axis, lo: int, hi: int)
    requires forall i :: 0 <= i < |buf| ==> lo <= Component(buf[i], a) <= hi
    ensures |buf| * lo <= AxisSum(buf, a) <= |buf| * hi
  {
    if buf != [] {
      var n := |buf| - 1;
      var init := buf[..n];
      assert forall i :: 0 <= i < |init| ==> init[i] == buf[i];
      AxisSumBounds(init, a, lo, hi);
      assert AxisSum(buf, a) == AxisSum(init, a) + Component(buf[n], a);
      assert lo <= Component(buf[n], a) <= hi;
      assert (n + 1) * lo == n * lo + lo;
      assert (n + 1) * hi == n * hi + hi;
    }
  }

  /** Each averaged axis lies between the smallest and largest buffered value of that axis. */
  lemma MeanWithinBuffer(buf: seq<TimedXyzData>, timestamp: U64, a: Axis, lo: int, hi: int)
    requires |buf| >= 1
    requires forall i :: 0 <= i < |buf| ==> lo <= Component(buf[i], a) <= hi
    ensures lo <= Component(Mean(buf, timestamp), a) <= hi
  {
    AxisSumBounds(buf, a, lo, hi);
    DivTruncBetween(AxisSum(buf, a), |buf|, lo, hi);
  }

  /** The summing loop of the averaging filters: one pass over the buffer. */
  method SumAxes(buf: seq<TimedXyzData>) returns (x: int, y: int, z: int)
    ensures x == AxisSum(buf, X) && y == AxisSum(buf, Y) && z == AxisSum(buf, Z)
  {
    x, y, z := 0, 0, 0;
    var i := 0;
    while i < |buf|
      invariant 0 <= i <= |buf|
      invariant x == AxisSum(buf[..i], X)
      invariant y == AxisSum(buf[..i], Y)
      invariant z == AxisSum(buf[..i], Z)
    {
      assert buf[..i + 1][..i] == buf[..i];
      x, y, z := x + buf[i].x, y + buf[i].y, z + buf[i].z;
      i := i + 1;
    }
    assert buf[..i] == buf;
  }
}
