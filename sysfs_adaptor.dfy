// Model of the start/stop/standby state machine of SysfsAdaptor
// (core/sysfsadaptor.cpp). The reader thread and the sysfs file descriptors
// are reduced to one flag (`readerActive`); whether starting the reader
// thread succeeds (startReaderThread, which opens the files) is a parameter.
// The adaptor's sensor entries are a map from sensor id to DeviceAdaptor.Entry.
module SysfsAdaptor {
  import opened Common
  import opened DeviceAdaptor

  /** The adaptor's state: its entries and the flags running_, inStandbyMode_, shouldBeRunning_. */
  datatype State = State(
    entries: map<string, Entry>,
    running: bool,
    inStandbyMode: bool,
    shouldBeRunning: bool,
    readerActive: bool)

  /**
   * The adaptor reads exactly while it is running, never runs in standby,
   * and runs only when it should.
   */
  predicate Consistent(s: State)
  {
    && (s.running <==> s.readerActive)
    && (s.inStandbyMode ==> !s.running)
    && (s.running ==> s.shouldBeRunning)
  }

  /** Entries other than `id` are unchanged, and no entry comes or goes. */
  predicate OthersUnchanged(a: map<string, Entry>, b: map<string, Entry>, id: string)
  {
    a.Keys == b.Keys && forall k :: k in a && k != id ==> b[k] == a[k]
  }

  /** The part of startSensor after the count was raised: the adaptor is not running. */
  function StartIdle(s: State, id: string, e: Entry, standbyOverride: bool, readerStarts: bool): (State, bool)
  {
    if s.inStandbyMode && !standbyOverride then
      (s.(entries := s.entries[id := e.(count := e.count + 1)], shouldBeRunning := true), true)
    else if !readerStarts then
      (s.(entries := s.entries[id := e.(running := false)], running := false,
          shouldBeRunning := false, inStandbyMode := false, readerActive := false), false)
    else
      (s.(entries := s.entries[id := Entry(e.count + 1, true)], running := true,
          shouldBeRunning := true, inStandbyMode := false, readerActive := true), true)
  }

  /**
   * startSensor(sensorId). An unknown id fails and changes nothing. Every
   * other start adds a reference, even when the adaptor already runs; in
   * standby without override the start is deferred (shouldBeRunning set,
   * not running); otherwise the reader is started, and when that fails the
   * reference and all flags are rolled back.
   */
  function StartStep(s: State, id: string, standbyOverride: bool, readerStarts: bool): (r: (State, bool))
    ensures id !in s.entries ==> r == (s, false)
    ensures r.1 <==> id in s.entries && (s.running || (s.inStandbyMode && !standbyOverride) || readerStarts)
    ensures OthersUnchanged(s.entries, r.0.entries, id)
    ensures r.1 ==> r.0.entries[id].count == s.entries[id].count + 1
    ensures id in s.entries && s.running ==>
      && r.0.running == s.running && r.0.inStandbyMode == s.inStandbyMode
      && r.0.shouldBeRunning == s.shouldBeRunning && r.0.readerActive == s.readerActive
      && r.0.entries[id].running == s.entries[id].running
    ensures id in s.entries && !s.running && s.inStandbyMode && !standbyOverride ==>
      && !r.0.running && r.0.inStandbyMode && r.0.shouldBeRunning && r.0.readerActive == s.readerActive
      && r.0.entries[id].running == s.entries[id].running
    ensures id in s.entries && !r.1 ==>
      && r.0.entries[id] == s.entries[id].(running := false)
      && !r.0.running && !r.0.shouldBeRunning && !r.0.readerActive && !r.0.inStandbyMode
    ensures r.1 && !s.running && !(s.inStandbyMode && !standbyOverride) ==>
      r.0.running && r.0.readerActive && !r.0.inStandbyMode && r.0.entries[id].running
    ensures Consistent(s) ==> Consistent(r.0)
  {
    if id !in s.entries then (s, false)
    else
      var e := s.entries[id];
      if s.running then (s.(entries := s.entries[id := e.(count := e.count + 1)]), true)
      else StartIdle(s, id, e, standbyOverride, readerStarts)
  }

  /**
   * stopSensor(sensorId). An unknown id, or an adaptor that should not run,
   * changes nothing. Otherwise a reference is dropped, and only when the
   * count reaches 0 or less does the adaptor stop: outside standby the reader
   * is stopped too.
   */
  function StopStep(s: State, id: string): (r: State)
    ensures id !in s.entries || !s.shouldBeRunning ==> r == s
    ensures OthersUnchanged(s.entries, r.entries, id)
    ensures r.inStandbyMode == s.inStandbyMode
    ensures id in s.entries && s.shouldBeRunning ==>
      && r.entries[id].count == s.entries[id].count - 1
      && (r.running <==> s.running && s.entries[id].count - 1 > 0)
      && (r.shouldBeRunning <==> s.entries[id].count - 1 > 0)
      && (s.entries[id].count - 1 > 0 ==> r.readerActive == s.readerActive && r.entries[id].running == s.entries[id].running)
      && (s.entries[id].count - 1 <= 0 ==> !r.entries[id].running && (!s.inStandbyMode ==> !r.readerActive))
    ensures Consistent(s) ==> Consistent(r)
  {
    if id !in s.entries || !s.shouldBeRunning then s
    else
      var e := s.entries[id];
      if e.count - 1 > 0 then s.(entries := s.entries[id := e.(count := e.count - 1)])
      else
        s.(entries := s.entries[id := Entry(e.count - 1, false)], running := false,
           shouldBeRunning := false, readerActive := if s.inStandbyMode then s.readerActive else false)
  }

  /**
   * standby(): always reports true. Under override or when already in
   * standby nothing changes; otherwise the adaptor enters standby, and a
   * running adaptor stops its reader without forgetting that it should run.
   */
  function StandbyStep(s: State, standbyOverride: bool): (r: (State, bool))
    ensures r.1
    ensures standbyOverride || s.inStandbyMode ==> r.0 == s
    ensures !standbyOverride && !s.inStandbyMode ==>
      && r.0.inStandbyMode && !r.0.running
      && r.0.entries == s.entries && r.0.shouldBeRunning == s.shouldBeRunning
      && (r.0.readerActive <==> s.readerActive && !s.running)
    ensures Consistent(s) ==> Consistent(r.0)
  {
    if standbyOverride || s.inStandbyMode then (s, true)
    else if !s.running then (s.(inStandbyMode := true), true)
    else (s.(inStandbyMode := true, running := false, readerActive := false), true)
  }

  /**
   * resume(): outside standby nothing changes. Otherwise standby ends, and
   * the reader is restarted only when the adaptor should be running; the
   * result is false only when that restart fails.
   */
  function ResumeStep(s: State, readerStarts: bool): (r: (State, bool))
    ensures !s.inStandbyMode ==> r == (s, true)
    ensures !r.0.inStandbyMode
    ensures r.0.entries == s.entries && r.0.shouldBeRunning == s.shouldBeRunning
    ensures r.1 <==> !(s.inStandbyMode && s.shouldBeRunning && !readerStarts)
    ensures s.inStandbyMode ==>
      (r.0.running <==> s.running || (s.shouldBeRunning && readerStarts))
    ensures Consistent(s) ==> Consistent(r.0)
  {
    if !s.inStandbyMode then (s, true)
    else if !s.shouldBeRunning then (s.(inStandbyMode := false), true)
    else if !readerStarts then (s.(inStandbyMode := false), false)
    else (s.(inStandbyMode := false, running := true, readerActive := true), true)
  }

  /**
   * Entering and leaving standby restores a consistent adaptor that runs
   * exactly when it should, provided the reader restarts.
   */
  lemma StandbyThenResume(s: State)
    requires Consistent(s) && !s.inStandbyMode && (s.shouldBeRunning ==> s.running)
    ensures ResumeStep(StandbyStep(s, false).0, true) == (s, true)
  {
  }

  /** A start deferred by standby runs once the adaptor resumes and its reader starts. */
  lemma DeferredStartRunsOnResume(s: State, id: string)
    requires Consistent(s) && s.inStandbyMode && id in s.entries
    ensures StartStep(s, id, false, true).1
    ensures ResumeStep(StartStep(s, id, false, true).0, true).0.running
  {
  }

  class Adaptor {
    var entries: map<string, Entry>
    /** running_ */
    var running: bool
    /** inStandbyMode_ */
    var inStandbyMode: bool
    /** shouldBeRunning_ */
    var shouldBeRunning: bool
    /** The reader thread runs and the files are open. */
    var readerActive: bool
    /** initNotDone */
    var initNotDone: bool
    /** deviceStandbyOverride(), set through DeviceAdaptor (not part of this model). */
    var standbyOverride: bool

    ghost function Snapshot(): State
      reads this`entries, this`running, this`inStandbyMode, this`shouldBeRunning, this`readerActive
    {
      State(entries, running, inStandbyMode, shouldBeRunning, readerActive)
    }

    ghost predicate Valid()
      reads this`entries, this`running, this`inStandbyMode, this`shouldBeRunning, this`readerActive
    {
      Consistent(Snapshot())
    }

    /** An adaptor with the given sensors, none referenced, idle and not initialised. */
    constructor (sensorIds: set<string>)
      ensures Valid() && initNotDone && !standbyOverride
      ensures Snapshot() == State(map id | id in sensorIds :: Entry(0, false), false, false, false, false)
    {
      entries := map id | id in sensorIds :: Entry(0, false);
      running, inStandbyMode, shouldBeRunning, readerActive := false, false, false, false;
      initNotDone := true;
      standbyOverride := false;
    }

    /** startAdaptor(): connects the reader once and always succeeds. */
    method StartAdaptor() returns (ok: bool)
      modifies this`initNotDone
      ensures ok && !initNotDone
    {
      initNotDone := false;
      return true;
    }

    /** startSensor(sensorId) */
    method StartSensor(sensorId: string, readerStarts: bool) returns (ok: bool)
      requires Valid()
      modifies this`entries, this`running, this`inStandbyMode, this`shouldBeRunning, this`readerActive
      ensures Valid()
      ensures (Snapshot(), ok) == StartStep(old(Snapshot()), sensorId, standbyOverride, readerStarts)
    {
      if sensorId !in entries {
        return false;
      }
      var e := entries[sensorId];
      entries := entries[sensorId := e.(count := e.count + 1)];
      if running {
        return true;
      }
      shouldBeRunning := true;
      if inStandbyMode && !standbyOverride {
        return true;
      }
      inStandbyMode := false;
      if !readerStarts {
        entries := entries[sensorId := e.(running := false)];
        assert entries == old(entries)[sensorId := e.(running := false)];
        running := false;
        shouldBeRunning := false;
        readerActive := false;
        return false;
      }
      readerActive := true;
      entries := entries[sensorId := Entry(e.count + 1, true)];
      assert entries == old(entries)[sensorId := Entry(e.count + 1, true)];
      running := true;
      return true;
    }

    /** stopSensor(sensorId) */
    method StopSensor(sensorId: string)
      requires Valid()
      modifies this`entries, this`running, this`shouldBeRunning, this`readerActive
      ensures Valid()
      ensures Snapshot() == StopStep(old(Snapshot()), sensorId)
    {
      if sensorId !in entries {
        return;
      }
      if !shouldBeRunning {
        return;
      }
      var e := entries[sensorId];
      entries := entries[sensorId := e.(count := e.count - 1)];
      if e.count - 1 <= 0 {
        if !inStandbyMode {
          readerActive := false;
        }
        entries := entries[sensorId := Entry(e.count - 1, false)];
        running := false;
        shouldBeRunning := false;
      }
    }

    /** standby() */
    method Standby() returns (ok: bool)
      requires Valid()
      modifies this`inStandbyMode, this`running, this`readerActive
      ensures Valid()
      ensures (Snapshot(), ok) == StandbyStep(old(Snapshot()), standbyOverride)
    {
      if standbyOverride || inStandbyMode {
        return true;
      }
      inStandbyMode := true;
      if !running {
        return true;
      }
      readerActive := false;
      running := false;
      return true;
    }

    /** resume() */
    method Resume(readerStarts: bool) returns (ok: bool)
      requires Valid()
      modifies this`inStandbyMode, this`running, this`readerActive
      ensures Valid()
      ensures (Snapshot(), ok) == ResumeStep(old(Snapshot()), readerStarts)
    {
      if !inStandbyMode {
        return true;
      }
      inStandbyMode := false;
      if !shouldBeRunning {
        return true;
      }
      if !readerStarts {
        return false;
      }
      readerActive := true;
      running := true;
      return true;
    }

    /**
     * stopAdaptor(): once initialised, every entry found running when it is
     * visited is stopped once, in an order the adaptor does not fix; no
     * entry loses more than one reference.
     */
    method StopAdaptor()
      requires Valid()
      modifies this`initNotDone, this`entries, this`running, this`shouldBeRunning, this`readerActive
      ensures Valid() && initNotDone
      ensures old(initNotDone) ==> Snapshot() == old(Snapshot())
      ensures entries.Keys == old(entries).Keys
      ensures forall k :: k in entries ==>
        entries[k].count == old(entries)[k].count || entries[k].count == old(entries)[k].count - 1
    {
      if initNotDone {
        return;
      }
      initNotDone := true;
      var todo := entries.Keys;
      while todo != {}
        invariant Valid() && initNotDone && todo <= entries.Keys && entries.Keys == old(entries).Keys
        invariant forall k :: k in todo ==> entries[k] == old(entries)[k]
        invariant forall k :: k in entries ==>
          entries[k].count == old(entries)[k].count || entries[k].count == old(entries)[k].count - 1
        decreases |todo|
      {
        var k := Pick(todo);
        if entries[k].running {
          StopSensor(k);
        }
        todo := todo - {k};
      }
    }
  }
}
