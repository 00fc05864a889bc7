// Model of HybrisAdaptor (core/hybrisadaptor.cpp): the choice of the
// interval among the sessions' requests, and the start/stop/standby state
// machine of an adaptor with its one sensor entry. The calls into
// HybrisManager (activation, delays, the shared reader thread) are left out:
// startReaderThread and resumeReader always report success there, so only
// the flags they set remain.
module HybrisAdaptor {
  import opened Common
  import opened DeviceAdaptor

  // ---------------------------------------------------------------------
  // evaluateIntervalRequests
  // ---------------------------------------------------------------------

  /** Some session asks for a positive interval (0 is reserved for a hardware wake-up). */
  predicate HasPositive(m: map<int, U32>)
  {
    exists k :: k in m && m[k] > 0
  }

  /**
   * The winning request: the smallest positive interval, and among equal
   * ones the lowest session id.
   */
  ghost predicate IsSmallestPositive(m: map<int, U32>, id: int, v: U32)
  {
    && id in m && v == m[id] && v > 0
    && (forall k :: k in m && m[k] > 0 ==> v <= m[k])
    && (forall k :: k in m && m[k] == v ==> id <= k)
  }

  /**
   * What evaluateIntervalRequests reports: with no requests session -1 and
   * the default; with a positive request the smallest positive one; with
   * only zero requests the default, attributed to the highest session id
   * (the walk replaces a zero winner by every later request).
   */
  ghost predicate Evaluated(m: map<int, U32>, defaultInterval: U32, id: int, v: U32)
    ensures Evaluated(m, defaultInterval, id, v) ==> (m == map[] && id == -1) || id in m
    ensures Evaluated(m, defaultInterval, id, v) ==> v == defaultInterval || (id in m && v == m[id] && v > 0)
  {
    if m == map[] then id == -1 && v == defaultInterval
    else if HasPositive(m) then IsSmallestPositive(m, id, v)
    else v == defaultInterval && id in m && forall k :: k in m ==> k <= id
  }

  /** At most one outcome meets Evaluated. */
  lemma EvaluatedUnique(m: map<int, U32>, d: U32, a: int, v: U32, b: int, w: U32)
    requires Evaluated(m, d, a, v) && Evaluated(m, d, b, w)
    ensures a == b && v == w
  {
    if m != map[] {
      if HasPositive(m) {
        assert v <= w && w <= v;
      } else {
        assert a <= b && b <= a;
      }
    }
  }

  /** A zero request never wins while some other session asks for a positive interval. */
  lemma ZeroNeverWins(m: map<int, U32>, d: U32, id: int, v: U32, k: int)
    requires Evaluated(m, d, id, v) && k in m && m[k] == 0 && HasPositive(m)
    ensures id != k && v > 0
  {
  }

  /**
   * evaluateIntervalRequests(sessionId): the requests are walked in ascending
   * session order; a positive request smaller than the winner, or any
   * request while the winner is 0, becomes the winner.
   */
  method EvaluateIntervalRequests(m: map<int, U32>, defaultInterval: U32) returns (sessionId: int, value: U32)
    ensures Evaluated(m, defaultInterval, sessionId, value)
  {
    if m == map[] {
      return -1, defaultInterval;
    }
    var rest := m.Keys;
    var first := LeastKey(rest);
    var highest := m[first];
    sessionId := first;
    rest := rest - {first};
    while rest != {}
      invariant rest <= m.Keys && sessionId in m && sessionId !in rest && highest == m[sessionId]
      invariant forall k :: k in rest ==> sessionId < k
      invariant highest == 0 ==> forall k :: k in m && k !in rest ==> m[k] == 0 && k <= sessionId
      invariant highest > 0 ==> forall k :: k in m && k !in rest && m[k] > 0 ==> highest <= m[k]
      invariant highest > 0 ==> forall k :: k in m && k !in rest && m[k] == highest ==> sessionId <= k
      decreases |rest|
    {
      var k := LeastKey(rest);
      if (m[k] < highest && m[k] > 0) || highest == 0 {
        highest := m[k];
        sessionId := k;
      }
      rest := rest - {k};
    }
    value := if highest > 0 then highest else defaultInterval;
  }

  // ---------------------------------------------------------------------
  // The start/stop/standby state machine
  // ---------------------------------------------------------------------

  /** The adaptor's sensor entry (getAdaptedSensor, which may be missing) and running_, inStandbyMode_, shouldBeRunning_. */
  datatype State = State(entry: Option<Entry>, running: bool, inStandbyMode: bool, shouldBeRunning: bool)

  /** The adaptor runs only when it should. */
  predicate Consistent(s: State)
  {
    s.running ==> s.shouldBeRunning
  }

  /**
   * startSensor(). Without an entry nothing changes. Otherwise a reference is
   * added even when the start is refused; the start is refused when the
   * adaptor already runs or is in standby without override, and otherwise
   * leaves standby and runs.
   */
  function StartStep(s: State, standbyOverride: bool): (r: (State, bool))
    ensures s.entry.None? ==> r == (s, false)
    ensures r.1 <==> s.entry.Some? && !s.running && !(s.inStandbyMode && !standbyOverride)
    ensures s.entry.Some? ==> r.0.entry.Some? && r.0.entry.value.count == s.entry.value.count + 1
    ensures !r.1 ==>
      && r.0.running == s.running && r.0.inStandbyMode == s.inStandbyMode
      && r.0.shouldBeRunning == s.shouldBeRunning
      && (r.0.entry.Some? ==> r.0.entry.value.running == s.entry.value.running)
    ensures r.1 ==> r.0.running && r.0.shouldBeRunning && !r.0.inStandbyMode && r.0.entry.value.running
    ensures Consistent(s) ==> Consistent(r.0)
  {
    match s.entry
    case None => (s, false)
    case Some(e) =>
      if s.running || (s.inStandbyMode && !standbyOverride) then
        (s.(entry := Some(e.(count := e.count + 1))), false)
      else
        (State(Some(Entry(e.count + 1, true)), true, false, true), true)
  }

  /**
   * stopSensor(). Without an entry, or when the adaptor should not run,
   * nothing changes. Otherwise a reference is dropped, and the adaptor stops
   * exactly when the count reaches 0 or less.
   */
  function StopStep(s: State): (r: State)
    ensures s.entry.None? || !s.shouldBeRunning ==> r == s
    ensures r.entry.Some? == s.entry.Some? && r.inStandbyMode == s.inStandbyMode
    ensures s.entry.Some? && s.shouldBeRunning ==>
      && r.entry.value.count == s.entry.value.count - 1
      && (r.running <==> s.running && s.entry.value.count - 1 > 0)
      && (r.shouldBeRunning <==> s.entry.value.count - 1 > 0)
      && (r.entry.value.running <==> s.entry.value.running && s.entry.value.count - 1 > 0)
    ensures Consistent(s) ==> Consistent(r)
  {
    match s.entry
    case None => s
    case Some(e) =>
      if !s.shouldBeRunning then s
      else if e.count - 1 > 0 then s.(entry := Some(e.(count := e.count - 1)))
      else s.(entry := Some(Entry(e.count - 1, false)), running := false, shouldBeRunning := false)
  }

  /**
   * standby(). Refused (false, nothing changes) when already in standby or
   * not running. Otherwise the adaptor enters standby, and afterwards it
   * counts as running exactly when standby is not overridden.
   */
  function StandbyStep(s: State, standbyOverride: bool): (r: (State, bool))
    ensures r.1 <==> !s.inStandbyMode && s.running
    ensures !r.1 ==> r.0 == s
    ensures r.1 ==>
      && r.0.inStandbyMode && (r.0.running <==> !standbyOverride)
      && r.0.entry == s.entry && r.0.shouldBeRunning == s.shouldBeRunning
    ensures Consistent(s) ==> Consistent(r.0)
  {
    if s.inStandbyMode || !s.running then (s, false)
    else (s.(inStandbyMode := true, running := !standbyOverride), true)
  }

  /**
   * resume(). Outside standby refused with nothing changed. Otherwise the
   * adaptor leaves standby, and runs again exactly when it should be
   * running, which is also when resume reports true.
   */
  function ResumeStep(s: State): (r: (State, bool))
    ensures !s.inStandbyMode ==> r == (s, false)
    ensures !r.0.inStandbyMode
    ensures r.0.entry == s.entry && r.0.shouldBeRunning == s.shouldBeRunning
    ensures r.1 <==> s.inStandbyMode && s.shouldBeRunning
    ensures r.0.running <==> s.running || r.1
    ensures Consistent(s) ==> Consistent(r.0)
  {
    if !s.inStandbyMode then (s, false)
    else if !s.shouldBeRunning then (s.(inStandbyMode := false), false)
    else (s.(inStandbyMode := false, running := true), true)
  }

  /** Standby followed by resume restores a running adaptor, with or without override. */
  lemma StandbyThenResume(s: State, standbyOverride: bool)
    requires Consistent(s) && !s.inStandbyMode && s.running
    ensures StandbyStep(s, standbyOverride).1
    ensures ResumeStep(StandbyStep(s, standbyOverride).0) == (s, true)
  {
  }

  /** A start refused in standby is remembered by its reference only: resume does not run the adaptor. */
  lemma RefusedStartNotResumed(s: State)
    requires s.entry.Some? && !s.running && !s.shouldBeRunning && s.inStandbyMode
    ensures !StartStep(s, false).1
    ensures !ResumeStep(StartStep(s, false).0).0.running
  {
  }

  class Adaptor {
    /** getAdaptedSensor() */
    var entry: Option<Entry>
    /** running_ */
    var running: bool
    /** inStandbyMode_ */
    var inStandbyMode: bool
    /** shouldBeRunning_ */
    var shouldBeRunning: bool
    /** deviceStandbyOverride(), set through DeviceAdaptor (not part of this model). */
    var standbyOverride: bool

    ghost function Snapshot(): State
      reads this`entry, this`running, this`inStandbyMode, this`shouldBeRunning
    {
      State(entry, running, inStandbyMode, shouldBeRunning)
    }

    ghost predicate Valid()
      reads this`entry, this`running, this`inStandbyMode, this`shouldBeRunning
    {
      Consistent(Snapshot())
    }

    /**
     * An idle adaptor whose sensor entry, if any, is unreferenced. The
     * constructor leaves shouldBeRunning_ uninitialised, so its first value
     * is a parameter.
     */
    constructor (hasEntry: bool, initialShouldBeRunning: bool)
      ensures Valid() && !standbyOverride
      ensures Snapshot() == State(if hasEntry then Some(Entry(0, false)) else None, false, false, initialShouldBeRunning)
    {
      entry := if hasEntry then Some(Entry(0, false)) else None;
      running, inStandbyMode, shouldBeRunning := false, false, initialShouldBeRunning;
      standbyOverride := false;
    }

    /** startSensor() */
    method StartSensor() returns (ok: bool)
      requires Valid()
      modifies this`entry, this`running, this`inStandbyMode, this`shouldBeRunning
      ensures Valid()
      ensures (Snapshot(), ok) == StartStep(old(Snapshot()), standbyOverride)
    {
      if entry.None? {
        return false;
      }
      var e := entry.value;
      entry := Some(e.(count := e.count + 1));
      if running {
        return false;
      }
      if inStandbyMode && !standbyOverride {
        return false;
      }
      shouldBeRunning := true;
      inStandbyMode := false;
      // startReaderThread()
      running := true;
      entry := Some(Entry(e.count + 1, true));
      running := true;
      return true;
    }

    /** stopSensor() */
    method StopSensor()
      requires Valid()
      modifies this`entry, this`running, this`shouldBeRunning
      ensures Valid()
      ensures Snapshot() == StopStep(old(Snapshot()))
    {
      if entry.None? {
        return;
      }
      if !shouldBeRunning {
        return;
      }
      var e := entry.value;
      entry := Some(e.(count := e.count - 1));
      if e.count - 1 <= 0 {
        entry := Some(Entry(e.count - 1, false));
        running := false;
        shouldBeRunning := false;
        if !inStandbyMode {
          // stopReaderThread()
          running := false;
        }
      }
    }

    /** standby() */
    method Standby() returns (ok: bool)
      requires Valid()
      modifies this`inStandbyMode, this`running
      ensures Valid()
      ensures (Snapshot(), ok) == StandbyStep(old(Snapshot()), standbyOverride)
    {
      if inStandbyMode {
        return false;
      }
      if !running {
        return false;
      }
      inStandbyMode := true;
      running := !standbyOverride;
      return true;
    }

    /** resume() */
    method Resume() returns (ok: bool)
      requires Valid()
      modifies this`inStandbyMode, this`running
      ensures Valid()
      ensures (Snapshot(), ok) == ResumeStep(old(Snapshot()))
    {
      if !inStandbyMode {
        return false;
      }
      inStandbyMode := false;
      if !shouldBeRunning {
        return false;
      }
      running := true;
      return true;
    }

    /** stopAdaptor(): a running sensor is stopped once (closing the sensors is left out). */
    method StopAdaptor()
      requires Valid() && entry.Some?
      modifies this`entry, this`running, this`shouldBeRunning
      ensures Valid()
      ensures Snapshot() == if old(entry.value.running) then StopStep(old(Snapshot())) else old(Snapshot())
    {
      if entry.value.running {
        StopSensor();
      }
    }
  }
}
