// Model of DownsampleFilter (filters/downsamplefilter): it collects samples
// until bufferSize of them are present, then emits their per-axis mean and
// starts over. Samples older than `timeout` relative to the newest one are
// discarded first. The timeout is kept in microseconds (a C++ long);
// setTimeout and timeout() speak milliseconds.
module DownsampleFilter {
  import opened Common
  import opened XyzData

  /** Largest unsigned int. */
  const UINT_MAX: int := 0xffff_ffff

  const DEFAULT_BUFFER_SIZE: nat := 1
  /** Microseconds; -1 casts to the largest unsigned long, so nothing ever expires. */
  const DEFAULT_TIMEOUT: int := -1

  /** timeout(): the stored microseconds, truncated to milliseconds. */
  function TimeoutMs(timeoutUs: int): (ms: int)
    ensures timeoutUs >= 0 ==> 0 <= 1000 * ms <= timeoutUs < 1000 * ms + 1000
    ensures timeoutUs < 0 ==> 1000 * ms - 1000 < timeoutUs <= 1000 * ms <= 0
  {
    DivTrunc(timeoutUs, 1000)
  }

  /** setTimeout(ms) followed by timeout() gives ms back, for negative ms too. */
  lemma TimeoutRoundTrip(ms: int)
    ensures TimeoutMs(ms * 1000) == ms
  {
    if ms * 1000 < 0 {
      assert (-(ms * 1000)) / 1000 == -ms;
    }
  }

  /** The default timeout of -1 microseconds reads back as 0 milliseconds. */
  lemma DefaultTimeoutReadsZero()
    ensures TimeoutMs(DEFAULT_TIMEOUT) == 0
  {
  }

  /**
   * Whether a sample has expired: only a non-zero timeout counts, the age is
   * the quint64 difference to the newest sample, and the timeout is compared
   * as an unsigned long.
   */
  predicate Expired(d: TimedXyzData, newest: U64, timeoutUs: int)
  {
    timeoutUs != 0 && Sub64(newest, d.timestamp) > timeoutUs % TWO_64
  }

  /** The test made for the sample at the iterator, while the buffer has `size` samples. */
  predicate EraseAt(size: int, d: TimedXyzData, newest: U64, bufferSize: nat, timeoutUs: int)
  {
    size > bufferSize || Expired(d, newest, timeoutUs)
  }

  /**
   * The erase loop of filter() as written: after every erase the loop's own
   * `++it` steps over the sample that erase() returned, so that sample is
   * kept without being examined. `kept` holds the samples before the iterator.
   */
  function EraseLoopAsWritten(kept: seq<TimedXyzData>, rest: seq<TimedXyzData>, newest: U64,
                              bufferSize: nat, timeoutUs: int): (r: seq<TimedXyzData>)
    ensures |r| <= |kept| + |rest|
    decreases |rest|
  {
    if rest == [] then kept
    else if EraseAt(|kept| + |rest|, rest[0], newest, bufferSize, timeoutUs) then
      var after := rest[1..];
      if after == [] then kept
      else EraseLoopAsWritten(kept + [after[0]], after[1..], newest, bufferSize, timeoutUs)
    else kept + rest
  }

  /**
   * The samples kept by the erase loop as evidently intended: the oldest ones
   * are erased while the buffer is too long or its oldest sample has expired.
   */
  function Discard(buf: seq<TimedXyzData>, newest: U64, bufferSize: nat, timeoutUs: int): (r: seq<TimedXyzData>)
    ensures |r| <= |buf|
    ensures r != [] ==> !EraseAt(|r|, r[0], newest, bufferSize, timeoutUs)
    ensures |r| <= bufferSize
    decreases |buf|
  {
    if buf != [] && EraseAt(|buf|, buf[0], newest, bufferSize, timeoutUs) then
      Discard(buf[1..], newest, bufferSize, timeoutUs)
    else buf
  }

  /** Discard keeps a suffix: only the oldest samples are erased. */
  lemma {:induction false} DiscardIsSuffix(buf: seq<TimedXyzData>, newest: U64, bufferSize: nat, timeoutUs: int)
    ensures var r := Discard(buf, newest, bufferSize, timeoutUs); r == buf[|buf| - |r|..]
  {
    if buf != [] && EraseAt(|buf|, buf[0], newest, bufferSize, timeoutUs) {
      DiscardIsSuffix(buf[1..], newest, bufferSize, timeoutUs);
      var r := Discard(buf, newest, bufferSize, timeoutUs);
      assert buf[1..][|buf| - 1 - |r|..] == buf[|buf| - |r|..];
    }
  }

  /**
   * With non-decreasing timestamps, no sample that Discard keeps has
   * expired: testing the oldest one is enough.
   */
  lemma DiscardKeepsNoExpired(buf: seq<TimedXyzData>, newest: U64, bufferSize: nat, timeoutUs: int, i: int)
    requires forall j, k :: 0 <= j <= k < |buf| ==> buf[j].timestamp <= buf[k].timestamp <= newest
    requires 0 <= i < |Discard(buf, newest, bufferSize, timeoutUs)|
    ensures !Expired(Discard(buf, newest, bufferSize, timeoutUs)[i], newest, timeoutUs)
  {
    var r := Discard(buf, newest, bufferSize, timeoutUs);
    DiscardIsSuffix(buf, newest, bufferSize, timeoutUs);
    var off := |buf| - |r|;
    assert r[0] == buf[off] && r[i] == buf[off + i];
  }

  /**
   * The loop as written leaves an expired sample behind: with bufferSize 5 and
   * a 1 ms timeout, samples at 0, 1 and 2 us followed by one at 5000 us keep
   * the sample at 1 us, which the intended loop erases.
   */
  lemma EraseLoopSkipsSamples()
    ensures var buf := [TimedXyzData(0, 0, 0, 0), TimedXyzData(1, 0, 0, 0), TimedXyzData(2, 0, 0, 0),
                        TimedXyzData(5000, 0, 0, 0)];
      && EraseLoopAsWritten([], buf, 5000, 5, 1000) == [TimedXyzData(1, 0, 0, 0), TimedXyzData(5000, 0, 0, 0)]
      && Expired(TimedXyzData(1, 0, 0, 0), 5000, 1000)
      && Discard(buf, 5000, 5, 1000) == [TimedXyzData(5000, 0, 0, 0)]
  {
    var a, b, c, d := TimedXyzData(0, 0, 0, 0), TimedXyzData(1, 0, 0, 0), TimedXyzData(2, 0, 0, 0), TimedXyzData(5000, 0, 0, 0);
    assert [a, b, c, d][1..] == [b, c, d] && [b, c, d][1..] == [c, d] && [c, d][1..] == [d] && [d][1..] == [];
    assert EraseLoopAsWritten([b], [c, d], 5000, 5, 1000) == [b, d];
    assert Discard([d], 5000, 5, 1000) == [d];
    assert Discard([c, d], 5000, 5, 1000) == [d];
    assert Discard([b, c, d], 5000, 5, 1000) == [d];
  }

  /** filter() as a function of the buffer and the incoming sample (with the intended erase loop). */
  function FilterSpec(buf: seq<TimedXyzData>, data: TimedXyzData, bufferSize: nat, timeoutUs: int)
    : (r: (seq<TimedXyzData>, Option<TimedXyzData>))
    requires bufferSize >= 1
    ensures r.1 == None ==> |r.0| < bufferSize && |r.0| <= |buf| + 1
    ensures r.1 != None ==> r.0 == [] && r.1.value.timestamp == data.timestamp
  {
    var kept := Discard(buf + [data], data.timestamp, bufferSize, timeoutUs);
    if |kept| < bufferSize then (kept, None)
    else ([], Some(Mean(kept, data.timestamp)))
  }

  /**
   * Nothing is emitted while fewer than bufferSize samples are kept; an
   * emitted sample is the per-axis mean of exactly bufferSize kept samples,
   * stamped with the newest timestamp, and the buffer is empty afterwards.
   */
  lemma FilterEmitsFullBuffers(buf: seq<TimedXyzData>, data: TimedXyzData, bufferSize: nat, timeoutUs: int)
    requires bufferSize >= 1
    ensures var kept := Discard(buf + [data], data.timestamp, bufferSize, timeoutUs);
      var (buf', out) := FilterSpec(buf, data, bufferSize, timeoutUs);
      && (out == None <==> |kept| < bufferSize)
      && (out == None ==> buf' == kept && |buf'| < bufferSize)
      && (out != None ==> buf' == [] && |kept| == bufferSize)
      && (out != None ==> out.value.timestamp == data.timestamp && out.value == Mean(kept, data.timestamp))
  {
  }

  /** An emitted value lies, per axis, between the extremes of the samples averaged. */
  lemma EmittedWithinSamples(buf: seq<TimedXyzData>, data: TimedXyzData, bufferSize: nat, timeoutUs: int,
                             a: Axis, lo: int, hi: int)
    requires bufferSize >= 1
    requires forall i :: 0 <= i < |buf| ==> lo <= Component(buf[i], a) <= hi
    requires lo <= Component(data, a) <= hi
    requires FilterSpec(buf, data, bufferSize, timeoutUs).1 != None
    ensures lo <= Component(FilterSpec(buf, data, bufferSize, timeoutUs).1.value, a) <= hi
  {
    var all := buf + [data];
    var kept := Discard(all, data.timestamp, bufferSize, timeoutUs);
    DiscardIsSuffix(all, data.timestamp, bufferSize, timeoutUs);
    forall i | 0 <= i < |kept| ensures lo <= Component(kept[i], a) <= hi {
      assert kept[i] == all[|all| - |kept| + i];
    }
    MeanWithinBuffer(kept, data.timestamp, a, lo, hi);
  }

  /**
   * With the default buffer size of one and the default timeout, every sample
   * is emitted unchanged at once.
   */
  lemma DefaultsPassSamplesThrough(data: TimedXyzData)
    ensures FilterSpec([], data, DEFAULT_BUFFER_SIZE, DEFAULT_TIMEOUT) == ([], Some(data))
  {
    assert [] + [data] == [data];
    assert Discard([data], data.timestamp, DEFAULT_BUFFER_SIZE, DEFAULT_TIMEOUT) == [data];
    MeanOfOne(data);
  }

  class Filter {
    var bufferSize: nat
    /** Microseconds. */
    var timeout: int
    var buffer: seq<TimedXyzData>

    ghost predicate Valid()
      reads this
    {
      bufferSize <= UINT_MAX
    }

    constructor ()
      ensures Valid()
      ensures bufferSize == DEFAULT_BUFFER_SIZE && timeout == DEFAULT_TIMEOUT && buffer == []
    {
      bufferSize := DEFAULT_BUFFER_SIZE;
      timeout := DEFAULT_TIMEOUT;
      buffer := [];
    }

    method SetBufferSize(size: nat)
      requires size <= UINT_MAX
      modifies this`bufferSize
      ensures Valid() && bufferSize == size
    {
      bufferSize := size;
    }

    method SetTimeout(ms: int)
      modifies this`timeout
      ensures timeout == ms * 1000
      ensures TimeoutMs(timeout) == ms
    {
      timeout := ms * 1000;
      TimeoutRoundTrip(ms);
    }

    /** timeout(): milliseconds. */
    method Timeout() returns (ms: int)
      ensures ms == TimeoutMs(timeout)
      ensures timeout % 1000 == 0 ==> ms * 1000 == timeout
    {
      ms := DivTrunc(timeout, 1000);
    }

    /**
     * filter(): append the sample, erase the stale ones, and emit the mean
     * once bufferSize samples are present. A buffer size of 0 makes the source
     * divide by an empty buffer's count, so it is excluded.
     */
    method Filter(data: TimedXyzData) returns (out: Option<TimedXyzData>)
      requires bufferSize >= 1
      modifies this`buffer
      ensures (buffer, out) == FilterSpec(old(buffer), data, bufferSize, timeout)
    {
      buffer := buffer + [data];
      ghost var all := buffer;
      while buffer != [] && EraseAt(|buffer|, buffer[0], data.timestamp, bufferSize, timeout)
        invariant Discard(buffer, data.timestamp, bufferSize, timeout) == Discard(all, data.timestamp, bufferSize, timeout)
        decreases |buffer|
      {
        buffer := buffer[1..];
      }
      if |buffer| < bufferSize {
        return None;
      }
      var x, y, z := SumAxes(buffer);
      var count := |buffer|;
      out := Some(TimedXyzData(data.timestamp, DivTrunc(x, count), DivTrunc(y, count), DivTrunc(z, count)));
      buffer := [];
    }
  }
}
