// Model of PegatronAccelerometerAdaptor
// (adaptors/pegatronaccelerometeradaptor/pegatronaccelerometeradaptor.cpp):
// input events update the pending x, y, z values, a sync event commits them
// as one OrientationData (a TimedXyzData) to the adaptor's ring buffer, and
// the interval is chosen among the sessions' requests.
module PegatronAdaptor {
  import opened Common
  import opened XyzData
  import opened RingBuffer
  import opened HybrisAdaptor

  /** Event type and axis codes of the Linux input protocol (linux/input.h). */
  const EV_ABS: int := 3
  const ABS_X: int := 0
  const ABS_Y: int := 1
  const ABS_Z: int := 2

  /** The adaptor's ring buffer holds 128 samples. */
  const BUFFER_SIZE: nat := 128

  /** The default interval: 300 ms. */
  const DEFAULT_INTERVAL: U32 := 300

  /** The pending axis values, orientationValue_. */
  datatype Axes = Axes(x: int, y: int, z: int)

  /**
   * interpretEvent: an absolute-axis event sets the axis its code names;
   * every other event, and every other code, changes nothing.
   */
  function Interpreted(a: Axes, evType: int, code: int, value: int): (r: Axes)
    ensures evType != EV_ABS || code !in {ABS_X, ABS_Y, ABS_Z} ==> r == a
    ensures evType == EV_ABS && code == ABS_X ==> r == Axes(value, a.y, a.z)
    ensures evType == EV_ABS && code == ABS_Y ==> r == Axes(a.x, value, a.z)
    ensures evType == EV_ABS && code == ABS_Z ==> r == Axes(a.x, a.y, value)
  {
    if evType != EV_ABS then a
    else if code == ABS_X then a.(x := value)
    else if code == ABS_Y then a.(y := value)
    else if code == ABS_Z then a.(z := value)
    else a
  }

  /** An axis event followed by one for another axis keeps both values. */
  lemma EventsForDifferentAxesCombine(a: Axes, first: int, second: int, u: int, v: int)
    requires first in {ABS_X, ABS_Y, ABS_Z} && second in {ABS_X, ABS_Y, ABS_Z} && first != second
    ensures var r := Interpreted(Interpreted(a, EV_ABS, first, u), EV_ABS, second, v);
      && (r.x == if second == ABS_X then v else if first == ABS_X then u else a.x)
      && (r.y == if second == ABS_Y then v else if first == ABS_Y then u else a.y)
      && (r.z == if second == ABS_Z then v else if first == ABS_Z then u else a.z)
  {
  }

  // ---------------------------------------------------------------------
  // evaluateIntervalRequests as written
  // ---------------------------------------------------------------------

  /** The request of the lowest session id is 0. */
  ghost predicate FirstIsZero(m: map<int, U32>)
  {
    exists k :: k in m && m[k] == 0 && forall j :: j in m ==> k <= j
  }

  /**
   * What this adaptor's evaluateIntervalRequests reports: the walk starts
   * with the lowest session's request and only a smaller positive request
   * replaces it, so a first request of 0 is never replaced and yields the
   * default interval.
   */
  ghost predicate EvaluatedAsWritten(m: map<int, U32>, defaultInterval: U32, id: int, v: U32)
    ensures EvaluatedAsWritten(m, defaultInterval, id, v) ==> (m == map[] && id == -1) || id in m
    ensures EvaluatedAsWritten(m, defaultInterval, id, v) ==> v == defaultInterval || (id in m && v == m[id] && v > 0)
  {
    if m == map[] then id == -1 && v == defaultInterval
    else if FirstIsZero(m) then v == defaultInterval && id in m && m[id] == 0 && forall j :: j in m ==> id <= j
    else IsSmallestPositive(m, id, v)
  }

  /**
   * evaluateIntervalRequests(sessionId) of this adaptor: the map is walked in
   * ascending session order and only a positive request smaller than the
   * winner replaces it.
   */
  method EvaluateIntervalRequestsAsWritten(m: map<int, U32>, defaultInterval: U32) returns (sessionId: int, value: U32)
    ensures EvaluatedAsWritten(m, defaultInterval, sessionId, value)
  {
    if m == map[] {
      return -1, defaultInterval;
    }
    var rest := m.Keys;
    var first := LeastKey(rest);
    var highest := m[first];
    sessionId := first;
    rest := rest - {first};
    while rest != {}
      invariant rest <= m.Keys && sessionId in m && sessionId !in rest && highest == m[sessionId]
      invariant first in m && (forall j :: j in m ==> first <= j) && (m[first] == 0 ==> highest == 0)
      invariant forall k :: k in rest ==> sessionId < k
      invariant highest == 0 ==> sessionId == first
      invariant highest > 0 ==> forall k :: k in m && k !in rest && m[k] > 0 ==> highest <= m[k]
      invariant highest > 0 ==> forall k :: k in m && k !in rest && m[k] == highest ==> sessionId <= k
      decreases |rest|
    {
      var k := LeastKey(rest);
      if m[k] < highest && m[k] > 0 {
        highest := m[k];
        sessionId := k;
      }
      rest := rest - {k};
    }
    value := if highest > 0 then highest else defaultInterval;
    if highest == 0 {
      assert FirstIsZero(m);
    }
  }

  /** When the lowest session asks for a positive interval, the adaptor agrees with the intended choice. */
  lemma AsWrittenAgreesWithoutLeadingZero(m: map<int, U32>, d: U32, id: int, v: U32)
    requires !FirstIsZero(m)
    ensures EvaluatedAsWritten(m, d, id, v) <==> Evaluated(m, d, id, v)
  {
    if m != map[] {
      var first := LeastExists(m.Keys);
      assert m[first] > 0;
    }
  }

  /**
   * A 0 request from the lowest session hides every positive request:
   * requests {1: 0, 2: 100} give the default 300 where 100 is meant.
   */
  lemma LeadingZeroHidesPositiveRequest()
    ensures forall id: int, v: U32 :: EvaluatedAsWritten(map[1 := 0, 2 := 100], DEFAULT_INTERVAL, id, v) ==> v == 300
    ensures Evaluated(map[1 := 0, 2 := 100], DEFAULT_INTERVAL, 2, 100)
  {
    var m: map<int, U32> := map[1 := 0, 2 := 100];
    assert FirstIsZero(m) by {
      assert m[1] == 0 && forall j :: j in m ==> 1 <= j;
    }
    assert HasPositive(m) by {
      assert m[2] > 0;
    }
  }

  class Adaptor {
    /** orientationValue_ */
    var pending: Axes
    /** accelerometerBuffer_ */
    const buffer: Buffer<TimedXyzData>

    ghost predicate Valid()
      reads this, buffer, buffer.slots
    {
      buffer.Valid() && buffer.bufferSize == BUFFER_SIZE
    }

    constructor ()
      ensures Valid() && fresh(buffer) && fresh(buffer.slots)
      ensures pending == Axes(0, 0, 0) && buffer.writeCount == 0 && buffer.written == []
    {
      pending := Axes(0, 0, 0);
      buffer := new Buffer<TimedXyzData>(BUFFER_SIZE);
    }

    /** interpretEvent(src, ev) */
    method InterpretEvent(evType: int, code: int, value: int)
      modifies this`pending
      ensures pending == Interpreted(old(pending), evType, code, value)
    {
      if evType == EV_ABS {
        if code == ABS_X {
          pending := pending.(x := value);
        } else if code == ABS_Y {
          pending := pending.(y := value);
        } else if code == ABS_Z {
          pending := pending.(z := value);
        }
      }
    }

    /**
     * commitOutput(ev): the pending values, stamped with the event's time,
     * go into the buffer's next slot, no other slot changes, and they are
     * committed once (waking the readers is left out).
     */
    method CommitOutput(timestamp: U64)
      requires Valid()
      modifies buffer`writeCount, buffer`written, buffer.slots
      ensures Valid()
      ensures buffer.writeCount == old(buffer.writeCount) + 1
      ensures buffer.written == old(buffer.written) + [TimedXyzData(timestamp, pending.x, pending.y, pending.z)]
      ensures buffer.slots[..] == old(buffer.slots[..])[Slot(old(buffer.writeCount), BUFFER_SIZE) :=
                TimedXyzData(timestamp, pending.x, pending.y, pending.z)]
    {
      buffer.Put(TimedXyzData(timestamp, pending.x, pending.y, pending.z));
    }
  }
}
