// Model of the request bookkeeping of NodeBase (core/nodebase.cpp), the base
// class of every adaptor, filter and chain. The modelled node keeps its own
// data ranges and intervals (it has no range, interval or standby source to
// delegate to). The virtual hooks a subclass provides (setDataRange,
// setInterval, setStandbyOverride, setBufferSize, setBufferInterval) are
// modelled by recording the argument of their last call; where the source
// returns a hook's result, that result is a parameter.
module NodeBase {
  import opened Common

  /** DataRange: equal when min, max and resolution are equal. */
  datatype DataRange = DataRange(min: real, max: real, resolution: real)

  /** DataRangeRequest: a session's requested range. */
  datatype DataRangeRequest = DataRangeRequest(id: int, range: DataRange)

  /** The session id a default range is reported under. */
  const DEFAULT_DATA_RANGE_REQUEST: int := -1

  /** Buffer sizes a node without sources offers. */
  const MIN_BUFFER_SIZE: int := 1
  const MAX_BUFFER_SIZE: int := 256
  /** Buffer intervals (ms) a node without sources offers. */
  const MIN_BUFFER_INTERVAL: int := 0
  const MAX_BUFFER_INTERVAL: int := 60000

  // ---------------------------------------------------------------------
  // The data-range queue
  // ---------------------------------------------------------------------

  predicate UniqueIds(q: seq<DataRangeRequest>)
  {
    forall i, j :: 0 <= i < j < |q| ==> q[i].id != q[j].id
  }

  /** Every queued range is one of the available ranges. */
  predicate QueuedAvailable(q: seq<DataRangeRequest>, ranges: seq<DataRange>)
  {
    forall i :: 0 <= i < |q| ==> q[i].range in ranges
  }

  /** The position of the session's request in the queue, -1 when it has none. */
  function FirstIndex(q: seq<DataRangeRequest>, id: int): (i: int)
    ensures -1 <= i < |q|
    ensures i >= 0 ==> q[i].id == id && forall j :: 0 <= j < i ==> q[j].id != id
    ensures i == -1 ==> forall j :: 0 <= j < |q| ==> q[j].id != id
    decreases |q|
  {
    if q == [] then -1
    else if q[0].id == id then 0
    else
      var k := FirstIndex(q[1..], id);
      if k == -1 then -1 else k + 1
  }

  /** getCurrentDataRange: the head of the queue, or the first available range under session -1. */
  function CurrentDataRange(q: seq<DataRangeRequest>, ranges: seq<DataRange>): (r: DataRangeRequest)
    requires q != [] || ranges != []
    ensures q != [] ==> r in q
    ensures q == [] ==> r.id == DEFAULT_DATA_RANGE_REQUEST && r.range in ranges
  {
    if q == [] then DataRangeRequest(DEFAULT_DATA_RANGE_REQUEST, ranges[0]) else q[0]
  }

  /** The current range is always an available one. */
  lemma CurrentRangeIsAvailable(q: seq<DataRangeRequest>, ranges: seq<DataRange>)
    requires ranges != [] && QueuedAvailable(q, ranges)
    ensures CurrentDataRange(q, ranges).range in ranges
    ensures q == [] ==> CurrentDataRange(q, ranges).id == DEFAULT_DATA_RANGE_REQUEST
  {
  }

  /** The queue after requestDataRange: the session's entry is replaced in place, or appended. */
  function Requested(q: seq<DataRangeRequest>, id: int, range: DataRange): (r: seq<DataRangeRequest>)
    ensures DataRangeRequest(id, range) in r
    ensures |r| == |q| + (if FirstIndex(q, id) >= 0 then 0 else 1)
    ensures forall j :: 0 <= j < |q| && q[j].id != id ==> r[j] == q[j]
    ensures forall j :: 0 <= j < |r| ==> r[j] in q || r[j] == DataRangeRequest(id, range)
  {
    var i := FirstIndex(q, id);
    var e := DataRangeRequest(id, range);
    if i >= 0 then
      assert q[i := e][i] == e;
      q[i := e]
    else
      assert (q + [e])[|q|] == e;
      q + [e]
  }

  /** The queue after removeDataRangeRequest: the session's first entry is taken out. */
  function Removed(q: seq<DataRangeRequest>, id: int): (r: seq<DataRangeRequest>)
    ensures FirstIndex(q, id) < 0 ==> r == q
    ensures FirstIndex(q, id) >= 0 ==> |r| == |q| - 1
    ensures FirstIndex(q, id) >= 0 ==> forall j :: 0 <= j < |r| ==> r[j] == q[if j < FirstIndex(q, id) then j else j + 1]
  {
    var i := FirstIndex(q, id);
    if i >= 0 then
      q[..i] + q[i + 1..]
    else q
  }

  /** The requests of every other session, in queue order. */
  function Without(q: seq<DataRangeRequest>, id: int): (r: seq<DataRangeRequest>)
    ensures |r| <= |q|
    decreases |q|
  {
    if q == [] then []
    else (if q[0].id == id then [] else [q[0]]) + Without(q[1..], id)
  }

  lemma {:induction false} WithoutConcat(a: seq<DataRangeRequest>, b: seq<DataRangeRequest>, id: int)
    ensures Without(a + b, id) == Without(a, id) + Without(b, id)
    decreases |a|
  {
    if a != [] {
      var head := if a[0].id == id then [] else [a[0]];
      assert (a + b)[0] == a[0];
      assert (a + b)[1..] == a[1..] + b;
      assert Without(a + b, id) == head + Without(a[1..] + b, id);
      WithoutConcat(a[1..], b, id);
      assert Without(a, id) == head + Without(a[1..], id);
    } else {
      assert a + b == b;
    }
  }

  lemma {:induction false} WithoutAbsent(q: seq<DataRangeRequest>, id: int)
    requires forall j :: 0 <= j < |q| ==> q[j].id != id
    ensures Without(q, id) == q
    decreases |q|
  {
    if q != [] {
      WithoutAbsent(q[1..], id);
      assert q == [q[0]] + q[1..];
    }
  }

  /** Taking out the only request of a session leaves the requests of the others. */
  lemma WithoutOnly(q: seq<DataRangeRequest>, i: int, id: int)
    requires 0 <= i < |q| && q[i].id == id
    requires forall j :: 0 <= j < |q| && j != i ==> q[j].id != id
    ensures Without(q, id) == q[..i] + q[i + 1..]
  {
    var pre, tail := q[..i], q[i + 1..];
    assert q == (pre + [q[i]]) + tail;
    forall j | 0 <= j < |pre| ensures pre[j].id != id {
      assert pre[j] == q[j];
    }
    forall j | 0 <= j < |tail| ensures tail[j].id != id {
      assert tail[j] == q[i + 1 + j];
    }
    WithoutAbsent(pre, id);
    WithoutAbsent(tail, id);
    WithoutConcat(pre + [q[i]], tail, id);
    WithoutConcat(pre, [q[i]], id);
    assert Without([q[i]], id) == [] by {
      assert [q[i]][1..] == [];
    }
    calc {
      Without(q, id);
      Without(pre + [q[i]], id) + Without(tail, id);
      (Without(pre, id) + Without([q[i]], id)) + tail;
      pre + tail;
    }
  }

  /** Replacing a session's request by another of the same session leaves the other requests alone. */
  lemma {:induction false} WithoutUpdate(q: seq<DataRangeRequest>, i: int, e: DataRangeRequest, id: int)
    requires 0 <= i < |q| && q[i].id == id && e.id == id
    ensures Without(q[i := e], id) == Without(q, id)
    decreases |q|
  {
    var q' := q[i := e];
    if i == 0 {
      assert q'[1..] == q[1..];
    } else {
      assert q'[0] == q[0];
      assert q'[1..] == q[1..][i - 1 := e];
      WithoutUpdate(q[1..], i - 1, e, id);
    }
  }

  /**
   * A request changes only the requesting session's entry: every other
   * session keeps its request and its place in the queue, and the session
   * now asks for the given range; the queue grows only for a new session.
   */
  lemma RequestedKeepsOthers(q: seq<DataRangeRequest>, id: int, range: DataRange)
    ensures Without(Requested(q, id, range), id) == Without(q, id)
    ensures DataRangeRequest(id, range) in Requested(q, id, range)
    ensures |Requested(q, id, range)| == |q| + (if FirstIndex(q, id) >= 0 then 0 else 1)
  {
    var i := FirstIndex(q, id);
    var e := DataRangeRequest(id, range);
    if i >= 0 {
      WithoutUpdate(q, i, e, id);
      assert Requested(q, id, range)[i] == e;
    } else {
      WithoutConcat(q, [e], id);
      assert [e][1..] == [];
      assert Without([e], id) == [];
      assert Requested(q, id, range)[|q|] == e;
    }
  }

  /** A request keeps the queue's invariant: unique sessions, each asking for an available range. */
  lemma RequestedKeepsInvariant(q: seq<DataRangeRequest>, ranges: seq<DataRange>, id: int, range: DataRange)
    requires UniqueIds(q) && QueuedAvailable(q, ranges) && range in ranges
    ensures UniqueIds(Requested(q, id, range)) && QueuedAvailable(Requested(q, id, range), ranges)
  {
    var r := Requested(q, id, range);
    var i := FirstIndex(q, id);
    forall j | 0 <= j < |r| ensures r[j].range in ranges && (j < |q| ==> r[j].id == q[j].id) {
      if j < |q| && j != i {
        assert r[j] == q[j];
      }
    }
  }

  lemma RequestedKeepsInvariantIfValid(q: seq<DataRangeRequest>, ranges: seq<DataRange>, id: int, range: DataRange)
    requires range in ranges
    ensures UniqueIds(q) && QueuedAvailable(q, ranges) ==>
      UniqueIds(Requested(q, id, range)) && QueuedAvailable(Requested(q, id, range), ranges)
  {
    if UniqueIds(q) && QueuedAvailable(q, ranges) {
      RequestedKeepsInvariant(q, ranges, id, range);
    }
  }

  /** With unique session ids, removal takes out exactly that session's request and nothing else. */
  lemma RemovedIsWithout(q: seq<DataRangeRequest>, id: int)
    requires UniqueIds(q)
    ensures Removed(q, id) == Without(q, id)
  {
    var i := FirstIndex(q, id);
    if i >= 0 {
      WithoutOnly(q, i, id);
    } else {
      WithoutAbsent(q, id);
    }
  }

  /** A removal keeps the queue's invariant, and the session has no request left. */
  lemma RemovedKeepsInvariant(q: seq<DataRangeRequest>, ranges: seq<DataRange>, id: int)
    requires UniqueIds(q) && QueuedAvailable(q, ranges)
    ensures UniqueIds(Removed(q, id)) && QueuedAvailable(Removed(q, id), ranges)
    ensures forall j :: 0 <= j < |Removed(q, id)| ==> Removed(q, id)[j].id != id
  {
    var i := FirstIndex(q, id);
    var r := Removed(q, id);
    if i >= 0 {
      forall a | 0 <= a < |r| ensures r[a] == q[if a < i then a else a + 1] {
      }
    }
  }

  /** The removal as removeDataRangeRequest performs it, at the index its loop finds. */
  lemma RemovedAtIndex(q: seq<DataRangeRequest>, ranges: seq<DataRange>, id: int)
    requires UniqueIds(q) && QueuedAvailable(q, ranges) && FirstIndex(q, id) >= 0
    ensures var i := FirstIndex(q, id);
      var r := q[..i] + q[i + 1..];
      ranges != [] && r == Removed(q, id) && UniqueIds(r) && QueuedAvailable(r, ranges) &&
      (RemoveRangeChanged(q, ranges, id) <==>
        i == 0 && ((|r| > 0 && r[0].range != q[i].range) || ranges[0] != q[i].range))
  {
    var i := FirstIndex(q, id);
    var r := q[..i] + q[i + 1..];
    assert r == Removed(q, id) && |r| == |q| - 1;
    assert q[i].range in ranges;
    RemovedKeepsInvariant(q, ranges, id);
    if i == 0 && |q| > 1 {
      assert r[0] == q[1];
    }
  }

  /** requestDataRange's test whether the current range is about to change. */
  function RequestRangeChanged(q: seq<DataRangeRequest>, ranges: seq<DataRange>, id: int, range: DataRange): (changed: bool)
    requires q != [] || ranges != []
    ensures changed <==> CurrentDataRange(Requested(q, id, range), ranges).range != CurrentDataRange(q, ranges).range
  {
    if q == [] then range != ranges[0]
    else q[0].id == id && q[0].range != range
  }

  /** requestDataRange applies a range exactly when the current range changes. */
  lemma RequestSignalsExactlyRangeChanges(q: seq<DataRangeRequest>, ranges: seq<DataRange>, id: int,
                                          range: DataRange)
    requires ranges != []
    ensures RequestRangeChanged(q, ranges, id, range) <==>
      CurrentDataRange(Requested(q, id, range), ranges).range != CurrentDataRange(q, ranges).range
  {
  }

  /** removeDataRangeRequest's test whether the current range is about to change. */
  function RemoveRangeChanged(q: seq<DataRangeRequest>, ranges: seq<DataRange>, id: int): (changed: bool)
    requires ranges != []
    ensures changed ==> q != [] && q[0].id == id
    ensures q != [] && q[0].id == id && CurrentDataRange(Removed(q, id), ranges).range != q[0].range ==> changed
  {
    FirstIndex(q, id) == 0 &&
    ((|q| > 1 && q[1].range != q[0].range) || ranges[0] != q[0].range)
  }

  /**
   * requestDataRange as a whole: the new queue and the last range applied.
   * A range that is not available is ignored.
   */
  function RequestStep(q: seq<DataRangeRequest>, ranges: seq<DataRange>, id: int, range: DataRange,
                       applied: Option<DataRangeRequest>): (r: (seq<DataRangeRequest>, Option<DataRangeRequest>))
    ensures range !in ranges ==> r == (q, applied)
    ensures range in ranges ==> r.0 == Requested(q, id, range)
    ensures range in ranges && CurrentDataRange(r.0, ranges).range != CurrentDataRange(q, ranges).range ==>
      r.1 == Some(CurrentDataRange(r.0, ranges))
    ensures r.1 != applied ==> ranges != [] && r.1 == Some(CurrentDataRange(r.0, ranges))
    ensures UniqueIds(q) && QueuedAvailable(q, ranges) ==> UniqueIds(r.0) && QueuedAvailable(r.0, ranges)
  {
    if range !in ranges then (q, applied)
    else
      var q' := Requested(q, id, range);
      RequestedKeepsInvariantIfValid(q, ranges, id, range);
      if RequestRangeChanged(q, ranges, id, range) then (q', Some(CurrentDataRange(q', ranges)))
      else (q', applied)
  }

  /**
   * removeDataRangeRequest as a whole: the new queue and the last range
   * applied. A session without a request changes nothing.
   */
  function RemoveStep(q: seq<DataRangeRequest>, ranges: seq<DataRange>, id: int,
                      applied: Option<DataRangeRequest>): (r: (seq<DataRangeRequest>, Option<DataRangeRequest>))
    requires QueuedAvailable(q, ranges)
    ensures FirstIndex(q, id) < 0 ==> r == (q, applied)
    ensures FirstIndex(q, id) >= 0 ==> r.0 == Removed(q, id)
    ensures r.1 != applied ==> ranges != [] && r.1 == Some(CurrentDataRange(r.0, ranges))
  {
    var i := FirstIndex(q, id);
    if i < 0 then (q, applied)
    else
      assert q[i].range in ranges;
      var q' := Removed(q, id);
      if RemoveRangeChanged(q, ranges, id) then (q', Some(CurrentDataRange(q', ranges)))
      else (q', applied)
  }

  /** removeDataRangeRequest applies the new current range whenever the removal changes it. */
  lemma RemoveStepAppliesRangeChanges(q: seq<DataRangeRequest>, ranges: seq<DataRange>, id: int,
                                      applied: Option<DataRangeRequest>)
    requires ranges != [] && QueuedAvailable(q, ranges)
    ensures var r := RemoveStep(q, ranges, id, applied);
      CurrentDataRange(r.0, ranges).range != CurrentDataRange(q, ranges).range ==>
      r.1 == Some(CurrentDataRange(r.0, ranges))
  {
    if FirstIndex(q, id) >= 0 {
      RemoveSignalsRangeChanges(q, ranges, id);
    }
  }

  /** Whenever a removal changes the current range, the new current range is applied. */
  lemma RemoveSignalsRangeChanges(q: seq<DataRangeRequest>, ranges: seq<DataRange>, id: int)
    requires ranges != []
    ensures CurrentDataRange(Removed(q, id), ranges).range != CurrentDataRange(q, ranges).range ==>
      RemoveRangeChanged(q, ranges, id)
  {
    var i := FirstIndex(q, id);
    if i > 0 {
      assert Removed(q, id)[0] == q[0];
    } else if i == 0 && |q| > 1 {
      assert Removed(q, id)[0] == q[1];
    }
  }

  /**
   * The converse does not hold: the test also fires when the removed head is
   * followed by a request for the same range, if that range is not the first
   * available one; the unchanged range is then applied again.
   */
  lemma RemoveMayReapplyUnchangedRange()
    ensures var a, b := DataRange(0.0, 1.0, 1.0), DataRange(0.0, 2.0, 1.0);
      var q := [DataRangeRequest(1, b), DataRangeRequest(2, b)];
      && RemoveRangeChanged(q, [a, b], 1)
      && CurrentDataRange(Removed(q, 1), [a, b]).range == CurrentDataRange(q, [a, b]).range
  {
    var a, b := DataRange(0.0, 1.0, 1.0), DataRange(0.0, 2.0, 1.0);
    var q := [DataRangeRequest(1, b), DataRangeRequest(2, b)];
    assert FirstIndex(q, 1) == 0;
    assert Removed(q, 1) == [DataRangeRequest(2, b)];
  }

  // ---------------------------------------------------------------------
  // Standby override requests
  // ---------------------------------------------------------------------

  /** The sessions asking for standby override after setStandbyOverrideRequest(id, override). */
  function StandbyRequests(list: seq<int>, id: int, override: bool): (r: seq<int>)
    ensures id in r <==> override
    ensures forall s :: s != id ==> (s in r <==> s in list)
  {
    if !override then RemoveAll(list, id)
    else if id in list then list else list + [id]
  }

  /**
   * Only the requesting session's entry changes: it is listed exactly when it
   * asks for override, and sessions stay listed once each.
   */
  lemma StandbyRequestsSpec(list: seq<int>, id: int, override: bool)
    requires NoDuplicates(list)
    ensures NoDuplicates(StandbyRequests(list, id, override))
    ensures id in StandbyRequests(list, id, override) <==> override
    ensures forall s :: s != id ==> (s in StandbyRequests(list, id, override) <==> s in list)
  {
    if !override {
      RemoveAllKeepsNoDuplicates(list, id);
      RemoveAllMembers(list, id, id);
      forall s | s != id ensures s in RemoveAll(list, id) <==> s in list {
        RemoveAllMembers(list, id, s);
      }
    }
  }

  // ---------------------------------------------------------------------
  // Interval requests
  // ---------------------------------------------------------------------

  /** isValidIntervalRequest: the value lies in one of the available intervals. */
  predicate InRanges(list: seq<DataRange>, value: int)
  {
    exists i :: 0 <= i < |list| && list[i].min <= value as real <= list[i].max
  }

  /**
   * evaluateIntervalRequests' winner: the smallest requested interval, and
   * among equal ones the lowest session id (the map is walked in ascending
   * key order and only a strictly smaller value replaces the winner).
   */
  ghost predicate IsWinner(m: map<int, U32>, id: int, v: U32)
  {
    && id in m && v == m[id]
    && (forall k :: k in m ==> v <= m[k])
    && (forall k :: k in m && m[k] == v ==> id <= k)
  }

  /** There is at most one winner. */
  lemma WinnerUnique(m: map<int, U32>, a: int, v: U32, b: int, w: U32)
    requires IsWinner(m, a, v) && IsWinner(m, b, w)
    ensures a == b && v == w
  {
    assert v <= w && w <= v;
  }

  /** Every non-empty request map has a winner. */
  lemma WinnerExists(m: map<int, U32>)
    requires m != map[]
    ensures exists w: (int, U32) :: IsWinner(m, w.0, w.1)
  {
    var values := set k | k in m :: m[k] as int;
    var k0 := LeastExists(m.Keys);
    assert m[k0] as int in values;
    var least := LeastExists(values);
    var ties := set k | k in m && m[k] == least;
    var tie :| tie in m && m[tie] == least;
    assert tie in ties;
    var id := LeastExists(ties);
    forall k | k in m ensures m[id] <= m[k] {
      assert m[k] as int in values;
    }
    forall k | k in m && m[k] == m[id] ensures id <= k {
      assert k in ties;
    }
    var w := (id, m[id]);
    assert IsWinner(m, w.0, w.1);
  }

  /** evaluateIntervalRequests' winner as a function of the requests. */
  ghost function WinnerOf(m: map<int, U32>): (int, U32)
    requires m != map[]
  {
    WinnerExists(m);
    var w: (int, U32) :| IsWinner(m, w.0, w.1);
    w
  }

  /**
   * The interval applied after a change of the requests: the winner's, when
   * its session id is not negative; with no requests, nothing new.
   */
  ghost function IntervalApplied(m: map<int, U32>, previous: Option<(U32, int)>): (r: Option<(U32, int)>)
    ensures m == map[] ==> r == previous
    ensures r != previous ==> r.Some? && r.value.1 >= 0 && IsWinner(m, r.value.1, r.value.0)
  {
    if m == map[] then previous
    else
      var w := WinnerOf(m);
      if w.0 >= 0 then Some((w.1, w.0)) else previous
  }

  /** The applied interval is the smallest requested one, requested by the lowest session id among equals. */
  lemma IntervalAppliedSpec(m: map<int, U32>, previous: Option<(U32, int)>)
    ensures m == map[] ==> IntervalApplied(m, previous) == previous
    ensures m != map[] ==> IsWinner(m, WinnerOf(m).0, WinnerOf(m).1)
    ensures m != map[] ==>
      IntervalApplied(m, previous) == if WinnerOf(m).0 >= 0 then Some((WinnerOf(m).1, WinnerOf(m).0)) else previous
  {
  }

  /**
   * updateBufferSize's choice: the value requested by the largest session
   * id, provided that id is not negative; 0 otherwise.
   */
  ghost predicate IsLargestKeyValue(m: map<int, U32>, v: U32)
  {
    && ((forall k :: k in m ==> k < 0) ==> v == 0)
    && (forall k :: k in m && k >= 0 && (forall k' :: k' in m ==> k' <= k) ==> v == m[k])
  }

  /** The value IsLargestKeyValue describes is unique. */
  lemma LargestKeyValueUnique(m: map<int, U32>, v: U32, w: U32)
    requires IsLargestKeyValue(m, v) && IsLargestKeyValue(m, w)
    ensures v == w
  {
    if exists k :: k in m && k >= 0 {
      var top := GreatestExists(m.Keys);
      assert top >= 0;
    }
  }

  /** updateBufferSize's choice as a function of the requests. */
  ghost function LargestKeyChoice(m: map<int, U32>): (v: U32)
    ensures (forall k :: k in m ==> k < 0) ==> v == 0
    ensures v != 0 ==> exists k :: k in m && k >= 0 && m[k] == v
  {
    if m.Keys == {} then 0
    else
      var k := MaxKey(m.Keys);
      if k >= 0 then m[k] else 0
  }

  /** The largest element of a non-empty set of session ids. */
  ghost function MaxKey(s: set<int>): (k: int)
    requires s != {}
    ensures k in s
  {
    HasGreatest(s);
    var k :| k in s && forall x :: x in s ==> x <= k;
    k
  }

  lemma MaxKeyIsGreatest(s: set<int>)
    requires s != {}
    ensures forall x :: x in s ==> x <= MaxKey(s)
  {
  }

  /** The choice is the value of the largest session id, or 0 when every id is negative. */
  lemma LargestKeyChoiceSpec(m: map<int, U32>)
    ensures IsLargestKeyValue(m, LargestKeyChoice(m))
  {
    if m.Keys != {} {
      MaxKeyIsGreatest(m.Keys);
    }
  }

  lemma HasGreatest(s: set<int>)
    requires s != {}
    ensures exists m :: m in s && forall x :: x in s ==> x <= m
  {
    var m := GreatestExists(s);
  }

  /**
   * The loop of updateBufferSize and updateBufferInterval. It keeps the last
   * key that is at least the largest one seen so far, starting from key 0
   * and value 0, so the order in which keys are visited does not matter.
   */
  method LargestKeyValue(m: map<int, U32>) returns (value: U32)
    ensures IsLargestKeyValue(m, value)
  {
    var key := 0;
    value := 0;
    var rest := m.Keys;
    while rest != {}
      invariant rest <= m.Keys && key >= 0
      invariant forall k :: k in m && k !in rest ==> k <= key
      invariant key in m && key !in rest ==> value == m[key]
      invariant !(key in m && key !in rest) ==> key == 0 && value == 0
      decreases |rest|
    {
      var k := Pick(rest);
      if k >= key {
        key := k;
        value := m[k];
      }
      rest := rest - {k};
    }
  }

  // ---------------------------------------------------------------------
  // The node
  // ---------------------------------------------------------------------

  class Node {
    var dataRangeList: seq<DataRange>
    var dataRangeQueue: seq<DataRangeRequest>
    var intervalList: seq<DataRange>
    var intervalMap: map<int, U32>
    var defaultInterval: U32
    var hasDefault: bool
    var standbyRequestList: seq<int>
    var bufferSizeMap: map<int, U32>
    var bufferIntervalMap: map<int, U32>
    /** Last call of setDataRange(range, sessionId), None if never called. */
    var dataRangeSet: Option<DataRangeRequest>
    /** Last call of setInterval(value, sessionId), None if never called. */
    var intervalSet: Option<(U32, int)>
    /** Last call of setStandbyOverride(override), None if never called. */
    var standbyOverrideSet: Option<bool>
    /** Last call of setBufferSize(value), None if never called. */
    var bufferSizeSet: Option<U32>
    /** Last call of setBufferInterval(value), None if never called. */
    var bufferIntervalSet: Option<U32>

    /** The data ranges are listed once, and the queue holds one available range per session. */
    ghost predicate RangesValid()
      reads this`dataRangeList, this`dataRangeQueue
    {
      NoDuplicates(dataRangeList) && UniqueIds(dataRangeQueue) && QueuedAvailable(dataRangeQueue, dataRangeList)
    }

    /** The intervals are listed once. */
    ghost predicate IntervalsValid()
      reads this`intervalList
    {
      NoDuplicates(intervalList)
    }

    /** A session asks for standby override at most once. */
    ghost predicate StandbyValid()
      reads this`standbyRequestList
    {
      NoDuplicates(standbyRequestList)
    }

    ghost predicate Valid()
      reads this`dataRangeList, this`intervalList, this`dataRangeQueue, this`standbyRequestList
    {
      RangesValid() && IntervalsValid() && StandbyValid()
    }

    constructor ()
      ensures Valid()
      ensures dataRangeList == [] && dataRangeQueue == [] && intervalList == [] && intervalMap == map[]
      ensures defaultInterval == 0 && !hasDefault && standbyRequestList == []
      ensures bufferSizeMap == map[] && bufferIntervalMap == map[]
      ensures dataRangeSet == None && intervalSet == None && standbyOverrideSet == None
      ensures bufferSizeSet == None && bufferIntervalSet == None
    {
      dataRangeList, dataRangeQueue, intervalList, intervalMap := [], [], [], map[];
      defaultInterval, hasDefault, standbyRequestList := 0, false, [];
      bufferSizeMap, bufferIntervalMap := map[], map[];
      dataRangeSet, intervalSet, standbyOverrideSet := None, None, None;
      bufferSizeSet, bufferIntervalSet := None, None;
    }

    /** introduceAvailableDataRange: a range is listed once. */
    method IntroduceAvailableDataRange(range: DataRange)
      requires RangesValid()
      modifies this`dataRangeList
      ensures RangesValid()
      ensures dataRangeList == if range in old(dataRangeList) then old(dataRangeList) else old(dataRangeList) + [range]
    {
      if range !in dataRangeList {
        dataRangeList := dataRangeList + [range];
      }
    }

    /** introduceAvailableInterval: an interval is listed once. */
    method IntroduceAvailableInterval(interval: DataRange)
      requires IntervalsValid()
      modifies this`intervalList
      ensures IntervalsValid()
      ensures intervalList == if interval in old(intervalList) then old(intervalList) else old(intervalList) + [interval]
    {
      if interval !in intervalList {
        intervalList := intervalList + [interval];
      }
    }

    /**
     * getCurrentDataRange. With an empty queue the source reads the first
     * available range, so a node without ranges and requests is excluded.
     */
    method GetCurrentDataRange() returns (r: DataRangeRequest)
      requires RangesValid() && (dataRangeQueue != [] || dataRangeList != [])
      ensures r == CurrentDataRange(dataRangeQueue, dataRangeList)
      ensures r.range in dataRangeList
    {
      if dataRangeQueue == [] {
        r := DataRangeRequest(DEFAULT_DATA_RANGE_REQUEST, dataRangeList[0]);
      } else {
        r := dataRangeQueue[0];
      }
    }

    /**
     * requestDataRange: unknown ranges are ignored; otherwise the session's
     * request is replaced in place or appended, and the new current range is
     * applied when the current range changes.
     */
    method RequestDataRange(sessionId: int, range: DataRange)
      requires RangesValid()
      modifies this`dataRangeQueue, this`dataRangeSet
      ensures RangesValid()
      ensures (dataRangeQueue, dataRangeSet) ==
        RequestStep(old(dataRangeQueue), dataRangeList, sessionId, range, old(dataRangeSet))
    {
      if range !in dataRangeList {
        return;
      }
      var rangeChanged := false;
      if dataRangeQueue == [] {
        rangeChanged := range != dataRangeList[0];
      } else {
        rangeChanged := dataRangeQueue[0].id == sessionId && dataRangeQueue[0].range != range;
      }
      ghost var q := dataRangeQueue;
      assert rangeChanged == RequestRangeChanged(q, dataRangeList, sessionId, range);
      var hadPreviousRequest := false;
      var i := 0;
      while i < |dataRangeQueue| && !hadPreviousRequest
        invariant 0 <= i <= |q|
        invariant !hadPreviousRequest ==> dataRangeQueue == q && forall j :: 0 <= j < i ==> q[j].id != sessionId
        invariant hadPreviousRequest ==> 1 <= i && FirstIndex(q, sessionId) == i - 1
        invariant hadPreviousRequest ==> dataRangeQueue == q[i - 1 := DataRangeRequest(sessionId, range)]
        invariant dataRangeSet == old(dataRangeSet)
        decreases |q| - i
      {
        if dataRangeQueue[i].id == sessionId {
          dataRangeQueue := dataRangeQueue[i := dataRangeQueue[i].(range := range)];
          hadPreviousRequest := true;
        }
        i := i + 1;
      }
      if !hadPreviousRequest {
        dataRangeQueue := dataRangeQueue + [DataRangeRequest(sessionId, range)];
      }
      assert dataRangeQueue == Requested(q, sessionId, range);
      RequestedKeepsInvariant(q, dataRangeList, sessionId, range);
      if rangeChanged {
        var current := GetCurrentDataRange();
        dataRangeSet := Some(current);
      }
    }

    /**
     * removeDataRangeRequest: the session's request is taken out (nothing
     * happens when it has none), and the current range is applied when the
     * removed request was at the head and its range may have changed.
     */
    method RemoveDataRangeRequest(sessionId: int)
      requires RangesValid()
      modifies this`dataRangeQueue, this`dataRangeSet
      ensures RangesValid()
      ensures (dataRangeQueue, dataRangeSet) == RemoveStep(old(dataRangeQueue), dataRangeList, sessionId, old(dataRangeSet))
    {
      ghost var q := dataRangeQueue;
      var index := FindRequest(sessionId);
      if index < 0 {
        return;
      }
      var request := dataRangeQueue[index];
      RemovedAtIndex(q, dataRangeList, sessionId);
      dataRangeQueue := dataRangeQueue[..index] + dataRangeQueue[index + 1..];
      var rangeChanged := false;
      if index == 0 {
        if (|dataRangeQueue| > 0 && dataRangeQueue[0].range != request.range) || dataRangeList[0] != request.range {
          rangeChanged := true;
        }
      }
      if rangeChanged {
        var current := GetCurrentDataRange();
        dataRangeSet := Some(current);
      }
    }

    /** The loop of removeDataRangeRequest: the place of the session's request in the queue, -1 if none. */
    method FindRequest(sessionId: int) returns (index: int)
      ensures index == FirstIndex(dataRangeQueue, sessionId)
    {
      index := -1;
      var i := 0;
      while i < |dataRangeQueue| && index == -1
        invariant 0 <= i <= |dataRangeQueue|
        invariant index == -1 ==> forall j :: 0 <= j < i ==> dataRangeQueue[j].id != sessionId
        invariant index != -1 ==> index == FirstIndex(dataRangeQueue, sessionId) && index == i - 1
        decreases |dataRangeQueue| - i
      {
        if dataRangeQueue[i].id == sessionId {
          index := i;
        }
        i := i + 1;
      }
    }

    /** isValidIntervalRequest: one pass over the available intervals. */
    method IsValidIntervalRequest(value: U32) returns (ok: bool)
      ensures ok <==> InRanges(intervalList, value)
    {
      var i := 0;
      while i < |intervalList|
        invariant 0 <= i <= |intervalList|
        invariant forall j :: 0 <= j < i ==> !(intervalList[j].min <= value as real <= intervalList[j].max)
        decreases |intervalList| - i
      {
        if intervalList[i].min <= value as real && intervalList[i].max >= value as real {
          return true;
        }
        i := i + 1;
      }
      return false;
    }

    /**
     * The loop of evaluateIntervalRequests: the map is walked in ascending key
     * order, as a QMap is, and only a strictly smaller value replaces the
     * winner found so far.
     */
    static method Winner(m: map<int, U32>) returns (sessionId: int, value: U32)
      requires m != map[]
      ensures IsWinner(m, sessionId, value)
    {
      var rest := m.Keys;
      var first := LeastKey(rest);
      sessionId, value := first, m[first];
      rest := rest - {first};
      while rest != {}
        invariant rest <= m.Keys && sessionId in m && sessionId !in rest && value == m[sessionId]
        invariant forall k :: k in m && k !in rest ==> value <= m[k]
        invariant forall k :: k in m && k !in rest && m[k] == value ==> sessionId <= k
        invariant forall k :: k in rest ==> sessionId < k
        decreases |rest|
      {
        var k := LeastKey(rest);
        if m[k] < value {
          sessionId, value := k, m[k];
        }
        rest := rest - {k};
      }
    }

    /** evaluateIntervalRequests: session -1 and the default interval without requests, otherwise the winning request. */
    method EvaluateIntervalRequests() returns (sessionId: int, value: U32)
      ensures intervalMap == map[] ==> sessionId == -1 && value == defaultInterval
      ensures intervalMap != map[] ==> IsWinner(intervalMap, sessionId, value)
    {
      if intervalMap == map[] {
        return -1, defaultInterval;
      }
      sessionId, value := Winner(intervalMap);
    }

    /**
     * setIntervalRequest: an invalid value is refused and changes nothing;
     * otherwise the request is stored and the winning request is applied
     * when its session id is not negative.
     */
    method SetIntervalRequest(sessionId: int, value: U32) returns (ok: bool)
      modifies this`intervalMap, this`intervalSet
      ensures ok <==> InRanges(intervalList, value)
      ensures !ok ==> intervalMap == old(intervalMap) && intervalSet == old(intervalSet)
      ensures ok ==> intervalMap == old(intervalMap)[sessionId := value]
      ensures ok ==> intervalSet == IntervalApplied(intervalMap, old(intervalSet))
    {
      ok := IsValidIntervalRequest(value);
      if !ok {
        return;
      }
      intervalMap := intervalMap[sessionId := value];
      var winningSessionId, winningRequest := EvaluateIntervalRequests();
      ApplyWinner(winningSessionId, winningRequest);
    }

    /** The tail of setIntervalRequest and removeIntervalRequest: apply the winner unless its session id is -1. */
    method ApplyWinner(winningSessionId: int, winningRequest: U32)
      requires intervalMap != map[] ==> IsWinner(intervalMap, winningSessionId, winningRequest)
      requires intervalMap == map[] ==> winningSessionId == -1
      modifies this`intervalSet
      ensures intervalSet == IntervalApplied(intervalMap, old(intervalSet))
    {
      if winningSessionId >= 0 {
        intervalSet := Some((winningRequest, winningSessionId));
      }
      if intervalMap != map[] {
        IntervalAppliedSpec(intervalMap, old(intervalSet));
        WinnerUnique(intervalMap, winningSessionId, winningRequest, WinnerOf(intervalMap).0, WinnerOf(intervalMap).1);
      }
    }

    /** setDefaultInterval: only a valid interval becomes the default. */
    method SetDefaultInterval(value: U32) returns (ok: bool)
      modifies this`defaultInterval, this`hasDefault
      ensures ok <==> InRanges(intervalList, value)
      ensures ok ==> defaultInterval == value && hasDefault
      ensures !ok ==> defaultInterval == old(defaultInterval) && hasDefault == old(hasDefault)
    {
      ok := IsValidIntervalRequest(value);
      if ok {
        defaultInterval := value;
        hasDefault := true;
      }
    }

    /** requestDefaultInterval: the session requests the default interval, if there is one. */
    method RequestDefaultInterval(sessionId: int) returns (ok: bool)
      modifies this`intervalMap, this`intervalSet
      ensures !hasDefault ==> ok && intervalMap == old(intervalMap) && intervalSet == old(intervalSet)
      ensures hasDefault ==> (ok <==> InRanges(intervalList, defaultInterval))
      ensures hasDefault && ok ==> intervalMap == old(intervalMap)[sessionId := defaultInterval]
      ensures hasDefault && ok ==> intervalSet == IntervalApplied(intervalMap, old(intervalSet))
      ensures hasDefault && !ok ==> intervalMap == old(intervalMap) && intervalSet == old(intervalSet)
    {
      if hasDefault {
        ok := SetIntervalRequest(sessionId, defaultInterval);
      } else {
        ok := true;
      }
    }

    /**
     * removeIntervalRequest: the session's request is dropped and the
     * winning remaining request applied; with no requests left nothing is
     * applied.
     */
    method RemoveIntervalRequest(sessionId: int)
      modifies this`intervalMap, this`intervalSet
      ensures intervalMap == old(intervalMap) - {sessionId}
      ensures intervalSet == IntervalApplied(intervalMap, old(intervalSet))
    {
      if sessionId in intervalMap {
        intervalMap := intervalMap - {sessionId};
      }
      var winningSessionId, winningRequest := EvaluateIntervalRequests();
      ApplyWinner(winningSessionId, winningRequest);
    }

    /**
     * setStandbyOverrideRequest for a node without standby sources: only
     * sessions asking for true are listed, once each, and the node applies
     * "some session asks for override". `applied` is what the subclass's
     * setStandbyOverride returns.
     */
    method SetStandbyOverrideRequest(sessionId: int, override: bool, applied: bool) returns (ok: bool)
      requires StandbyValid()
      modifies this`standbyRequestList, this`standbyOverrideSet
      ensures StandbyValid()
      ensures standbyRequestList == StandbyRequests(old(standbyRequestList), sessionId, override)
      ensures standbyOverrideSet == Some(|standbyRequestList| > 0) && ok == applied
    {
      StandbyRequestsSpec(standbyRequestList, sessionId, override);
      if !override {
        standbyRequestList := RemoveAll(standbyRequestList, sessionId);
      } else if sessionId !in standbyRequestList {
        standbyRequestList := standbyRequestList + [sessionId];
      }
      standbyOverrideSet := Some(|standbyRequestList| > 0);
      ok := applied;
    }

    /** standbyOverride for a node without standby sources. */
    method StandbyOverride() returns (r: bool)
      ensures !r
    {
      r := false;
    }

    /**
     * setBufferSize: a size outside 1..256 is refused; otherwise it is stored
     * for the session and the size of the largest session id applied.
     * `applied` is what the subclass's setBufferSize returns.
     */
    method SetBufferSize(sessionId: int, value: U32, applied: bool) returns (ok: bool)
      modifies this`bufferSizeMap, this`bufferSizeSet
      ensures !(MIN_BUFFER_SIZE <= value <= MAX_BUFFER_SIZE) ==>
        !ok && bufferSizeMap == old(bufferSizeMap) && bufferSizeSet == old(bufferSizeSet)
      ensures MIN_BUFFER_SIZE <= value <= MAX_BUFFER_SIZE ==>
                ok == applied && bufferSizeMap == old(bufferSizeMap)[sessionId := value] &&
                bufferSizeSet == Some(LargestKeyChoice(bufferSizeMap))
    {
      if !(MIN_BUFFER_SIZE <= value <= MAX_BUFFER_SIZE) {
        return false;
      }
      bufferSizeMap := bufferSizeMap[sessionId := value];
      ok := UpdateBufferSize(applied);
    }

    /** clearBufferSize: true when the session had a size; the remaining choice is applied. */
    method ClearBufferSize(sessionId: int, applied: bool) returns (removed: bool)
      modifies this`bufferSizeMap, this`bufferSizeSet
      ensures removed <==> sessionId in old(bufferSizeMap)
      ensures bufferSizeMap == old(bufferSizeMap) - {sessionId}
      ensures bufferSizeSet == Some(LargestKeyChoice(bufferSizeMap))
    {
      removed := sessionId in bufferSizeMap;
      bufferSizeMap := bufferSizeMap - {sessionId};
      var _ := UpdateBufferSize(applied);
    }

    /** updateBufferSize: apply the size of the largest session id. */
    method UpdateBufferSize(applied: bool) returns (ok: bool)
      modifies this`bufferSizeSet
      ensures bufferSizeSet == Some(LargestKeyChoice(bufferSizeMap))
      ensures ok == applied
    {
      var value := LargestKeyValue(bufferSizeMap);
      LargestKeyChoiceSpec(bufferSizeMap);
      LargestKeyValueUnique(bufferSizeMap, value, LargestKeyChoice(bufferSizeMap));
      bufferSizeSet := Some(value);
      ok := applied;
    }

    /** setBufferInterval: as setBufferSize, for intervals of 0..60000 ms. */
    method SetBufferInterval(sessionId: int, value: U32, applied: bool) returns (ok: bool)
      modifies this`bufferIntervalMap, this`bufferIntervalSet
      ensures !(MIN_BUFFER_INTERVAL <= value <= MAX_BUFFER_INTERVAL) ==>
        !ok && bufferIntervalMap == old(bufferIntervalMap) && bufferIntervalSet == old(bufferIntervalSet)
      ensures MIN_BUFFER_INTERVAL <= value <= MAX_BUFFER_INTERVAL ==>
                ok == applied && bufferIntervalMap == old(bufferIntervalMap)[sessionId := value] &&
                bufferIntervalSet == Some(LargestKeyChoice(bufferIntervalMap))
    {
      if !(MIN_BUFFER_INTERVAL <= value <= MAX_BUFFER_INTERVAL) {
        return false;
      }
      bufferIntervalMap := bufferIntervalMap[sessionId := value];
      ok := UpdateBufferInterval(applied);
    }

    /** clearBufferInterval: as clearBufferSize. */
    method ClearBufferInterval(sessionId: int, applied: bool) returns (removed: bool)
      modifies this`bufferIntervalMap, this`bufferIntervalSet
      ensures removed <==> sessionId in old(bufferIntervalMap)
      ensures bufferIntervalMap == old(bufferIntervalMap) - {sessionId}
      ensures bufferIntervalSet == Some(LargestKeyChoice(bufferIntervalMap))
    {
      removed := sessionId in bufferIntervalMap;
      bufferIntervalMap := bufferIntervalMap - {sessionId};
      var _ := UpdateBufferInterval(applied);
    }

    /** updateBufferInterval: apply the interval of the largest session id. */
    method UpdateBufferInterval(applied: bool) returns (ok: bool)
      modifies this`bufferIntervalSet
      ensures bufferIntervalSet == Some(LargestKeyChoice(bufferIntervalMap))
      ensures ok == applied
    {
      var value := LargestKeyValue(bufferIntervalMap);
      LargestKeyChoiceSpec(bufferIntervalMap);
      LargestKeyValueUnique(bufferIntervalMap, value, LargestKeyChoice(bufferIntervalMap));
      bufferIntervalSet := Some(value);
      ok := applied;
    }

    /**
     * setDataRangeIndex: an index outside the list is refused; otherwise the
     * range at that index is requested, and the result says whether it is
     * now the current range.
     */
    method SetDataRangeIndex(sessionId: int, rangeIndex: int) returns (ok: bool)
      requires RangesValid()
      modifies this`dataRangeQueue, this`dataRangeSet
      ensures RangesValid()
      ensures !(0 <= rangeIndex < |dataRangeList|) ==>
        !ok && dataRangeQueue == old(dataRangeQueue) && dataRangeSet == old(dataRangeSet)
      ensures 0 <= rangeIndex < |dataRangeList| ==>
        && (dataRangeQueue, dataRangeSet) ==
           RequestStep(old(dataRangeQueue), dataRangeList, sessionId, dataRangeList[rangeIndex], old(dataRangeSet))
        && (ok <==> CurrentDataRange(dataRangeQueue, dataRangeList).range == dataRangeList[rangeIndex])
    {
      if rangeIndex < 0 || rangeIndex > |dataRangeList| - 1 {
        return false;
      }
      RequestDataRange(sessionId, dataRangeList[rangeIndex]);
      var current := GetCurrentDataRange();
      ok := dataRangeList[rangeIndex] == current.range;
    }

    /**
     * removeSession: the session's standby, interval, data-range, buffer-size
     * and buffer-interval requests are all withdrawn, no other session's
     * requests change, and each setting is applied again from the requests
     * that remain.
     */
    method RemoveSession(sessionId: int)
      requires Valid()
      modifies this`standbyRequestList, this`standbyOverrideSet, this`intervalMap, this`intervalSet
      modifies this`dataRangeQueue, this`dataRangeSet, this`bufferSizeMap, this`bufferSizeSet
      modifies this`bufferIntervalMap, this`bufferIntervalSet
      ensures Valid()
      ensures standbyRequestList == RemoveAll(old(standbyRequestList), sessionId)
      ensures intervalMap == old(intervalMap) - {sessionId}
      ensures dataRangeQueue == Without(old(dataRangeQueue), sessionId)
      ensures bufferSizeMap == old(bufferSizeMap) - {sessionId}
      ensures bufferIntervalMap == old(bufferIntervalMap) - {sessionId}
      ensures standbyOverrideSet == Some(|standbyRequestList| > 0)
      ensures intervalSet == IntervalApplied(intervalMap, old(intervalSet))
      ensures (dataRangeQueue, dataRangeSet) == RemoveStep(old(dataRangeQueue), dataRangeList, sessionId, old(dataRangeSet))
      ensures bufferSizeSet == Some(LargestKeyChoice(bufferSizeMap))
      ensures bufferIntervalSet == Some(LargestKeyChoice(bufferIntervalMap))
    {
      RemoveStandbyAndInterval(sessionId);
      RemoveRangeAndBuffers(sessionId);
    }

    /** The data range, buffer size and buffer interval requests of a leaving session. */
    method RemoveRangeAndBuffers(sessionId: int)
      requires RangesValid()
      modifies this`dataRangeQueue, this`dataRangeSet, this`bufferSizeMap, this`bufferSizeSet
      modifies this`bufferIntervalMap, this`bufferIntervalSet
      ensures RangesValid()
      ensures dataRangeQueue == Without(old(dataRangeQueue), sessionId)
      ensures (dataRangeQueue, dataRangeSet) == RemoveStep(old(dataRangeQueue), dataRangeList, sessionId, old(dataRangeSet))
      ensures bufferSizeMap == old(bufferSizeMap) - {sessionId}
      ensures bufferIntervalMap == old(bufferIntervalMap) - {sessionId}
      ensures bufferSizeSet == Some(LargestKeyChoice(bufferSizeMap))
      ensures bufferIntervalSet == Some(LargestKeyChoice(bufferIntervalMap))
    {
      RemoveRangeRequest(sessionId);
      ClearBufferRequests(sessionId);
    }

    /** The data range request of a leaving session. */
    method RemoveRangeRequest(sessionId: int)
      requires RangesValid()
      modifies this`dataRangeQueue, this`dataRangeSet
      ensures RangesValid()
      ensures dataRangeQueue == Without(old(dataRangeQueue), sessionId)
      ensures (dataRangeQueue, dataRangeSet) == RemoveStep(old(dataRangeQueue), dataRangeList, sessionId, old(dataRangeSet))
    {
      RemovedIsWithout(dataRangeQueue, sessionId);
      RemoveDataRangeRequest(sessionId);
    }

    /** The standby override and interval requests of a leaving session. */
    method RemoveStandbyAndInterval(sessionId: int)
      requires StandbyValid()
      modifies this`standbyRequestList, this`standbyOverrideSet, this`intervalMap, this`intervalSet
      ensures StandbyValid()
      ensures standbyRequestList == RemoveAll(old(standbyRequestList), sessionId)
      ensures intervalMap == old(intervalMap) - {sessionId}
      ensures standbyOverrideSet == Some(|standbyRequestList| > 0)
      ensures intervalSet == IntervalApplied(intervalMap, old(intervalSet))
    {
      var _ := SetStandbyOverrideRequest(sessionId, false, false);
      RemoveIntervalRequest(sessionId);
    }

    /** The buffer size and buffer interval requests of a leaving session. */
    method ClearBufferRequests(sessionId: int)
      modifies this`bufferSizeMap, this`bufferSizeSet, this`bufferIntervalMap, this`bufferIntervalSet
      ensures bufferSizeMap == old(bufferSizeMap) - {sessionId}
      ensures bufferIntervalMap == old(bufferIntervalMap) - {sessionId}
      ensures bufferSizeSet == Some(LargestKeyChoice(bufferSizeMap))
      ensures bufferIntervalSet == Some(LargestKeyChoice(bufferIntervalMap))
    {
      var _ := ClearBufferSize(sessionId, false);
      var _ := ClearBufferInterval(sessionId, false);
    }
  }
}
