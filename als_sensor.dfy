// Model of ALSSensorChannel's output path (sensors/alssensor/alssensor.cpp):
// emitToDbus writes a light sample to the clients only when its value
// differs from the previous one, and publishes the Environment.IsDark and
// Environment.IsBright context properties (built with context support).
module AlsSensor {
  import opened Common

  /** TimedUnsigned: a timestamp and an unsigned value, here a lux reading. */
  datatype TimedUnsigned = TimedUnsigned(timestamp: U64, value: U32)

  /** Readings below this are dark. */
  const DARK_BELOW: int := 10
  /** Readings above this are bright. */
  const BRIGHT_ABOVE: int := 290

  /** The (IsDark, IsBright) pair published for a reading. */
  function Bands(value: U32): (r: (bool, bool))
    ensures r.0 <==> value < DARK_BELOW
    ensures r.1 <==> value > BRIGHT_ABOVE
    ensures !(r.0 && r.1)
  {
    if value < DARK_BELOW then (true, false)
    else if value > BRIGHT_ABOVE then (false, true)
    else (false, false)
  }

  /** The readings of the context test: 9 is dark, 148 neither, 307 bright. */
  lemma ContextTestReadings()
    ensures Bands(9) == (true, false)
    ensures Bands(148) == (false, false)
    ensures Bands(307) == (false, true)
  {
  }

  /** The channel's previous value, what it has written to its clients, and the two context properties. */
  datatype State = State(previousValue: U32, written: seq<TimedUnsigned>, isDark: Option<bool>, isBright: Option<bool>)

  /**
   * What was written never repeats a value twice in a row, never starts with
   * 0, and the previous value is the last one written (0 before any).
   */
  predicate ChangesOnly(s: State)
  {
    && (s.written == [] ==> s.previousValue == 0)
    && (s.written != [] ==> s.previousValue == s.written[|s.written| - 1].value && s.written[0].value != 0)
    && forall i :: 0 < i < |s.written| ==> s.written[i].value != s.written[i - 1].value
  }

  /** The constructor's state: previousValue_(0, 0) and no property published yet. */
  function Initial(): (s: State)
    ensures ChangesOnly(s) && s.written == []
  {
    State(0, [], None, None)
  }

  /**
   * emitToDbus(value): a value equal to the previous one is not written; a
   * new one is written and becomes the previous one; the properties are set
   * from the value's band either way.
   */
  function EmitStep(s: State, sample: TimedUnsigned): (r: State)
    ensures sample.value == s.previousValue ==> r.written == s.written && r.previousValue == s.previousValue
    ensures sample.value != s.previousValue ==> r.written == s.written + [sample] && r.previousValue == sample.value
    ensures r.isDark == Some(Bands(sample.value).0) && r.isBright == Some(Bands(sample.value).1)
    ensures ChangesOnly(s) ==> ChangesOnly(r)
  {
    var written := if sample.value != s.previousValue then s.written + [sample] else s.written;
    var previous := if sample.value != s.previousValue then sample.value else s.previousValue;
    var (dark, bright) := Bands(sample.value);
    State(previous, written, Some(dark), Some(bright))
  }

  /** A value emitted twice in a row is written at most once. */
  lemma RepeatWritesOnce(s: State, a: TimedUnsigned, b: TimedUnsigned)
    requires a.value == b.value
    ensures EmitStep(EmitStep(s, a), b).written == EmitStep(s, a).written
    ensures |EmitStep(EmitStep(s, a), b).written| <= |s.written| + 1
  {
  }

  class Channel {
    var previousValue: U32
    /** What writeToClients has sent. */
    var written: seq<TimedUnsigned>
    var isDark: Option<bool>
    var isBright: Option<bool>

    ghost function Snapshot(): State
      reads this
    {
      State(previousValue, written, isDark, isBright)
    }

    ghost predicate Valid()
      reads this
    {
      ChangesOnly(Snapshot())
    }

    constructor ()
      ensures Valid() && Snapshot() == Initial()
    {
      previousValue := 0;
      written := [];
      isDark, isBright := None, None;
    }

    /** emitToDbus(value) */
    method EmitToDbus(sample: TimedUnsigned)
      requires Valid()
      modifies this
      ensures Valid() && Snapshot() == EmitStep(old(Snapshot()), sample)
    {
      if sample.value != previousValue {
        previousValue := sample.value;
        written := written + [sample];
      }
      if sample.value < 10 {
        isDark := Some(true);
        isBright := Some(false);
      } else if sample.value > 290 {
        isBright := Some(true);
        isDark := Some(false);
      } else {
        isDark := Some(false);
        isBright := Some(false);
      }
    }
  }
}
