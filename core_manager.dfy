// Model of the core library's SensorManager (core/sensormanager.cpp and the
// registration templates of core/sensormanager.h): logical sensors shared by
// a set of sessions, and the reference-counted chain and device-adaptor
// registries. A channel, chain or adaptor instance is modelled by whether the
// instance exists; what its factory, isValid(), startAdaptor() and the D-Bus
// object registration report are parameters.
module CoreManager {
  import opened Common
  import opened Registry

  const INVALID_SESSION: int := -1

  /** SensorInstanceEntry: the sensor's type, the sessions holding it and whether its channel exists. */
  datatype SensorEntry = SensorEntry(typeName: string, sessions: set<int>, instantiated: bool)

  /** The invariant of one entry once the session ids 1..issued have been handed out. */
  ghost predicate EntryValid(e: SensorEntry, issued: int)
  {
    && (forall s :: s in e.sessions ==> 0 < s <= issued)
    && (e.instantiated <==> e.sessions != {})
  }

  lemma EntryValidLater(e: SensorEntry, issued: int, later: int)
    requires EntryValid(e, issued) && issued <= later
    ensures EntryValid(e, later)
  {
  }

  /** The outcome of a request: the new entry, the session id returned and the error set. */
  datatype Granted = Granted(entry: SensorEntry, sessionId: int, error: Error)

  /**
   * addSensor for a sensor no session holds: the channel exists afterwards
   * only if a factory is known for the type, it is valid and its D-Bus
   * registration succeeds; otherwise it is deleted again.
   */
  predicate AddSensorSucceeds(known: bool, valid: bool, busOk: bool)
  {
    known && valid && busOk
  }

  /**
   * requestSensor once the sensor is known to be registered and the new
   * session id s is drawn: the first session needs the channel to be created,
   * and when that fails the request reports SmNotInstantiated.
   */
  function RequestStep(e: SensorEntry, s: int, known: bool, valid: bool, busOk: bool): (r: Granted)
    requires s > 0
    ensures r.sessionId == s || r.sessionId == INVALID_SESSION
    ensures r.sessionId == s <==> e.sessions != {} || AddSensorSucceeds(known, valid, busOk)
    ensures r.sessionId == s ==> r.entry.sessions == e.sessions + {s} && r.entry.instantiated && r.error == SmNoError
    ensures r.sessionId != s ==> r.entry == e && r.error == SmNotInstantiated
    ensures r.entry.typeName == e.typeName
  {
    if e.sessions == {} && !AddSensorSucceeds(known, valid, busOk) then Granted(e, INVALID_SESSION, SmNotInstantiated)
    else Granted(e.(sessions := e.sessions + {s}, instantiated := true), s, SmNoError)
  }

  /** A request keeps a valid entry valid; the first session is the one that instantiates the sensor. */
  lemma RequestKeepsValid(e: SensorEntry, issued: int, known: bool, valid: bool, busOk: bool)
    requires issued >= 0 && EntryValid(e, issued)
    ensures EntryValid(RequestStep(e, issued + 1, known, valid, busOk).entry, issued + 1)
    ensures issued + 1 !in e.sessions
  {
  }

  /** The outcome of releaseSensor on a registered sensor. */
  datatype Released = Released(entry: SensorEntry, ok: bool, error: Error)

  /**
   * releaseSensor on a registered sensor, with the check for a sensor that
   * no session holds made before the channel is used: a session of the
   * sensor is removed, and the channel with the last one; any other id is
   * refused with SmNotInstantiated.
   */
  function ReleaseStep(e: SensorEntry, s: int): (r: Released)
    ensures r.ok <==> s in e.sessions
    ensures r.entry.sessions == e.sessions - {s} && r.entry.typeName == e.typeName
    ensures r.ok ==> r.error == SmNoError && (r.entry.instantiated <==> r.entry.sessions != {})
    ensures !r.ok ==> r.entry == e && r.error == SmNotInstantiated
  {
    if e.sessions == {} then Released(e, false, SmNotInstantiated)
    else if s in e.sessions then
      var left := e.sessions - {s};
      Released(e.(sessions := left, instantiated := left != {}), true, SmNoError)
    else Released(e, false, SmNotInstantiated)
  }

  lemma ReleaseKeepsValid(e: SensorEntry, issued: int, s: int)
    requires EntryValid(e, issued)
    ensures EntryValid(ReleaseStep(e, s).entry, issued)
  {
  }

  /** Releasing the session just granted restores the entry. */
  lemma ReleaseUndoesRequest(e: SensorEntry, issued: int, known: bool, valid: bool, busOk: bool)
    requires issued >= 0 && EntryValid(e, issued)
    requires RequestStep(e, issued + 1, known, valid, busOk).sessionId == issued + 1
    ensures ReleaseStep(RequestStep(e, issued + 1, known, valid, busOk).entry, issued + 1) == Released(e, true, SmNoError)
  {
    var r := RequestStep(e, issued + 1, known, valid, busOk);
    assert issued + 1 !in e.sessions;
    assert r.entry.sessions - {issued + 1} == e.sessions;
  }

  /** On a valid entry the code as written fails exactly where no session holds the sensor. */
  lemma ReleaseAsWrittenFailsWhenUnused(e: SensorEntry, issued: int, s: int)
    requires EntryValid(e, issued)
    ensures ReleaseAsWritten(e.instantiated, ReleaseStep(e, s)).None? <==> e.sessions == {}
  {
  }

  /** Releasing any session of a sensor that was registered but never requested. */
  lemma ReleaseOfUnrequestedSensor()
    ensures ReleaseAsWritten(SensorEntry("accelerometersensor", {}, false).instantiated,
                             ReleaseStep(SensorEntry("accelerometersensor", {}, false), 1)).None?
    ensures ReleaseStep(SensorEntry("accelerometersensor", {}, false), 1).error == SmNotInstantiated
  {
  }

  class Manager {
    /** sensorInstanceMap_ */
    var sensors: map<string, SensorEntry>
    /** chainInstanceMap_ */
    var chains: map<string, Counted>
    /** deviceAdaptorInstanceMap_ */
    var adaptors: map<string, Counted>
    /** The types with a registered factory. */
    var sensorFactories: set<string>
    var chainFactories: set<string>
    var adaptorFactories: set<string>
    /** sessionIdCount_: the last session id handed out. */
    var sessionIdCount: int
    var errorCode: Error

    ghost predicate SensorsValid()
      reads this`sensors, this`sessionIdCount
    {
      sessionIdCount >= 0 && forall id :: id in sensors ==> EntryValid(sensors[id], sessionIdCount)
    }

    ghost predicate CountsValid()
      reads this`chains, this`adaptors
    {
      && (forall id :: id in chains ==> CountedValid(chains[id]))
      && (forall id :: id in adaptors ==> CountedValid(adaptors[id]))
    }

    constructor ()
      ensures SensorsValid() && CountsValid()
      ensures sensors == map[] && chains == map[] && adaptors == map[]
      ensures sensorFactories == {} && chainFactories == {} && adaptorFactories == {}
      ensures sessionIdCount == 0 && errorCode == SmNoError
    {
      sensors, chains, adaptors := map[], map[], map[];
      sensorFactories, chainFactories, adaptorFactories := {}, {}, {};
      sessionIdCount := 0;
      errorCode := SmNoError;
    }

    /**
     * registerSensor: a new name is entered with its type and no sessions,
     * and the type's factory is registered; a name already present is left
     * alone.
     */
    method RegisterSensor(sensorName: string, typeName: string)
      requires SensorsValid()
      modifies this`sensors, this`sensorFactories
      ensures SensorsValid()
      ensures sensorName in old(sensors) ==> sensors == old(sensors) && sensorFactories == old(sensorFactories)
      ensures sensorName !in old(sensors) ==>
        sensors == old(sensors)[sensorName := SensorEntry(typeName, {}, false)] &&
        sensorFactories == old(sensorFactories) + {typeName}
    {
      if sensorName in sensors {
        return;
      }
      sensors := sensors[sensorName := SensorEntry(typeName, {}, false)];
      if typeName !in sensorFactories {
        sensorFactories := sensorFactories + {typeName};
      }
    }

    /** registerChain: as registerSensor, for chains. */
    method RegisterChain(chainName: string, typeName: string)
      requires CountsValid()
      modifies this`chains, this`chainFactories
      ensures CountsValid()
      ensures chainName in old(chains) ==> chains == old(chains) && chainFactories == old(chainFactories)
      ensures chainName !in old(chains) ==>
        chains == old(chains)[chainName := Registered(typeName)] && chainFactories == old(chainFactories) + {typeName}
    {
      if chainName in chains {
        return;
      }
      chains := chains[chainName := Registered(typeName)];
      if typeName !in chainFactories {
        chainFactories := chainFactories + {typeName};
      }
    }

    /** registerDeviceAdaptor: as registerSensor, under the adaptor name without its parameters. */
    method RegisterDeviceAdaptor(adaptorName: string, typeName: string)
      requires CountsValid()
      modifies this`adaptors, this`adaptorFactories
      ensures CountsValid()
      ensures CleanId(adaptorName) in old(adaptors) ==> adaptors == old(adaptors) && adaptorFactories == old(adaptorFactories)
      ensures CleanId(adaptorName) !in old(adaptors) ==>
        adaptors == old(adaptors)[CleanId(adaptorName) := Registered(typeName)] &&
        adaptorFactories == old(adaptorFactories) + {typeName}
    {
      var cleanAdaptorName := CleanId(adaptorName);
      if cleanAdaptorName in adaptors {
        return;
      }
      adaptors := adaptors[cleanAdaptorName := Registered(typeName)];
      if typeName !in adaptorFactories {
        adaptorFactories := adaptorFactories + {typeName};
      }
    }

    /** createNewSessionId: every new session id is larger than all earlier ones. */
    method CreateNewSessionId() returns (sessionId: int)
      modifies this`sessionIdCount
      ensures sessionIdCount == old(sessionIdCount) + 1 && sessionId == sessionIdCount
    {
      sessionIdCount := sessionIdCount + 1;
      sessionId := sessionIdCount;
    }

    /**
     * addSensor: an unregistered id is refused with SmIdNotRegistered; for a
     * registered one the channel is kept only if the factory is known, the
     * channel is valid and its D-Bus registration succeeds.
     */
    method AddSensor(id: string, valid: bool, busOk: bool) returns (created: bool)
      modifies this`sensors, this`errorCode
      ensures CleanId(id) !in old(sensors) ==> !created && sensors == old(sensors) && errorCode == SmIdNotRegistered
      ensures CleanId(id) in old(sensors) ==>
        (created <==> AddSensorSucceeds(old(sensors)[CleanId(id)].typeName in sensorFactories, valid, busOk))
      ensures CleanId(id) in old(sensors) ==>
        sensors == old(sensors)[CleanId(id) := old(sensors)[CleanId(id)].(instantiated := old(sensors)[CleanId(id)].instantiated || created)]
      ensures CleanId(id) in old(sensors) ==>
        errorCode == if !created && old(sensors)[CleanId(id)].typeName !in sensorFactories then SmFactoryNotRegistered
                     else if !created && valid then SmCanNotRegisterObject else SmNoError
    {
      errorCode := SmNoError;
      var cleanId := CleanId(id);
      if cleanId !in sensors {
        errorCode := SmIdNotRegistered;
        return false;
      }
      var e := sensors[cleanId];
      if e.typeName !in sensorFactories {
        errorCode := SmFactoryNotRegistered;
        return false;
      }
      if !valid {
        return false;
      }
      if !busOk {
        errorCode := SmCanNotRegisterObject;
        return false;
      }
      sensors := sensors[cleanId := e.(instantiated := true)];
      return true;
    }

    /** The entries other than `cleanId` stay valid when one more session id is issued. */
    lemma OthersStayValid(before: map<string, SensorEntry>, cleanId: string, e: SensorEntry)
      requires sessionIdCount >= 1
      requires forall id :: id in before ==> EntryValid(before[id], sessionIdCount - 1)
      requires EntryValid(e, sessionIdCount) && sensors == before[cleanId := e]
      ensures SensorsValid()
    {
      forall id | id in sensors ensures EntryValid(sensors[id], sessionIdCount) {
        if id != cleanId {
          EntryValidLater(before[id], sessionIdCount - 1, sessionIdCount);
        }
      }
    }

    /**
     * requestSensor: an unregistered id gets INVALID_SESSION with
     * SmIdNotRegistered and changes nothing; otherwise a new session id is
     * drawn and the request is made.
     */
    method RequestSensor(id: string, valid: bool, busOk: bool) returns (sessionId: int)
      requires SensorsValid()
      modifies this`sensors, this`errorCode, this`sessionIdCount
      ensures SensorsValid()
      ensures CleanId(id) !in old(sensors) ==>
        sessionId == INVALID_SESSION && errorCode == SmIdNotRegistered && sensors == old(sensors) && sessionIdCount == old(sessionIdCount)
      ensures CleanId(id) in old(sensors) ==> sessionIdCount == old(sessionIdCount) + 1
      ensures CleanId(id) in old(sensors) ==>
        var e := old(sensors)[CleanId(id)];
        var r := RequestStep(e, sessionIdCount, e.typeName in sensorFactories, valid, busOk);
        sensors == old(sensors)[CleanId(id) := r.entry] && sessionId == r.sessionId && errorCode == r.error
    {
      errorCode := SmNoError;
      var cleanId := CleanId(id);
      if cleanId !in sensors {
        errorCode := SmIdNotRegistered;
        return INVALID_SESSION;
      }
      ghost var before := sensors;
      var e := sensors[cleanId];
      var s := CreateNewSessionId();
      if e.sessions == {} {
        var created := AddSensor(id, valid, busOk);
        if !created {
          errorCode := SmNotInstantiated;
          return INVALID_SESSION;
        }
      }
      var entry := sensors[cleanId];
      sensors := sensors[cleanId := entry.(sessions := entry.sessions + {s})];
      sessionId := s;
      RequestKeepsValid(e, s - 1, e.typeName in sensorFactories, valid, busOk);
      OthersStayValid(before, cleanId, sensors[cleanId]);
    }

    /**
     * releaseSensor: an id with parameters is refused with no error set and
     * an unregistered one with SmIdNotRegistered, both changing nothing;
     * otherwise the release is made. The channel's removeSession is what
     * NodeBase.Node.RemoveSession models.
     */
    method ReleaseSensor(id: string, sessionId: int) returns (ok: bool)
      requires SensorsValid()
      modifies this`sensors, this`errorCode
      ensures SensorsValid()
      ensures ';' in id ==> !ok && errorCode == SmNoError && sensors == old(sensors)
      ensures ';' !in id && id !in old(sensors) ==> !ok && errorCode == SmIdNotRegistered && sensors == old(sensors)
      ensures ';' !in id && id in old(sensors) ==>
        var r := ReleaseStep(old(sensors)[id], sessionId);
        sensors == old(sensors)[id := r.entry] && ok == r.ok && errorCode == r.error
    {
      errorCode := SmNoError;
      if ';' in id {
        return false;
      }
      if id !in sensors {
        errorCode := SmIdNotRegistered;
        return false;
      }
      var e := sensors[id];
      ReleaseKeepsValid(e, sessionIdCount, sessionId);
      if e.sessions == {} {
        errorCode := SmNotInstantiated;
        return false;
      }
      if sessionId in e.sessions {
        var left := e.sessions - {sessionId};
        if left == {} {
          sensors := sensors[id := e.(sessions := left, instantiated := false)];
        } else {
          sensors := sensors[id := e.(sessions := left)];
        }
        ok := true;
      } else {
        errorCode := SmNotInstantiated;
        ok := false;
      }
    }

    /** requestChain: a chain is shared by reference count and created on first use. */
    method RequestChain(id: string) returns (instance: bool)
      requires CountsValid()
      modifies this`chains, this`errorCode
      ensures CountsValid()
      ensures id !in old(chains) ==> !instance && errorCode == SmIdNotRegistered && chains == old(chains)
      ensures id in old(chains) ==>
        var r := Acquire(old(chains)[id], old(chains)[id].typeName in chainFactories, true);
        chains == old(chains)[id := r.entry] && instance == r.instance && errorCode == r.error
    {
      errorCode := SmNoError;
      if id in chains {
        var e := chains[id];
        if e.instantiated {
          chains := chains[id := e.(cnt := e.cnt + 1)];
          instance := true;
        } else if e.typeName in chainFactories {
          chains := chains[id := e.(cnt := e.cnt + 1, instantiated := true)];
          instance := true;
        } else {
          errorCode := SmFactoryNotRegistered;
          instance := false;
        }
      } else {
        errorCode := SmIdNotRegistered;
        instance := false;
      }
    }

    /** releaseChain: the chain is deleted with its last reference. */
    method ReleaseChain(id: string)
      requires CountsValid()
      modifies this`chains, this`errorCode
      ensures CountsValid()
      ensures id !in old(chains) ==> errorCode == SmIdNotRegistered && chains == old(chains)
      ensures id in old(chains) ==>
        chains == old(chains)[id := Release(old(chains)[id]).0] && errorCode == Release(old(chains)[id]).1
    {
      errorCode := SmNoError;
      if id in chains {
        var e := chains[id];
        if e.instantiated {
          var cnt := e.cnt - 1;
          if cnt == 0 {
            chains := chains[id := e.(cnt := 0, instantiated := false)];
          } else {
            chains := chains[id := e.(cnt := cnt)];
          }
        } else {
          errorCode := SmNotInstantiated;
        }
      } else {
        errorCode := SmIdNotRegistered;
      }
    }

    /**
     * requestDeviceAdaptor: an id with parameters is refused as unknown;
     * otherwise an adaptor is shared by reference count and created on first
     * use if it starts.
     */
    method RequestDeviceAdaptor(id: string, started: bool) returns (instance: bool)
      requires CountsValid()
      modifies this`adaptors, this`errorCode
      ensures CountsValid()
      ensures ';' in id || id !in old(adaptors) ==> !instance && errorCode == SmIdNotRegistered && adaptors == old(adaptors)
      ensures ';' !in id && id in old(adaptors) ==>
        var r := Acquire(old(adaptors)[id], old(adaptors)[id].typeName in adaptorFactories, started);
        adaptors == old(adaptors)[id := r.entry] && instance == r.instance && errorCode == r.error
    {
      errorCode := SmNoError;
      if ';' in id {
        errorCode := SmIdNotRegistered;
        return false;
      }
      if id in adaptors {
        var e := adaptors[id];
        if e.instantiated {
          adaptors := adaptors[id := e.(cnt := e.cnt + 1)];
          instance := true;
        } else if e.typeName in adaptorFactories {
          if started {
            adaptors := adaptors[id := e.(cnt := e.cnt + 1, instantiated := true)];
            instance := true;
          } else {
            errorCode := SmAdaptorNotStarted;
            instance := false;
          }
        } else {
          errorCode := SmFactoryNotRegistered;
          instance := false;
        }
      } else {
        errorCode := SmIdNotRegistered;
        instance := false;
      }
    }

    /**
     * releaseDeviceAdaptor: an id with parameters is refused as unknown;
     * otherwise the adaptor is stopped and deleted with its last reference.
     */
    method ReleaseDeviceAdaptor(id: string)
      requires CountsValid()
      modifies this`adaptors, this`errorCode
      ensures CountsValid()
      ensures ';' in id || id !in old(adaptors) ==> errorCode == SmIdNotRegistered && adaptors == old(adaptors)
      ensures ';' !in id && id in old(adaptors) ==>
        adaptors == old(adaptors)[id := Release(old(adaptors)[id]).0] && errorCode == Release(old(adaptors)[id]).1
    {
      errorCode := SmNoError;
      if ';' in id {
        errorCode := SmIdNotRegistered;
        return;
      }
      if id in adaptors {
        var e := adaptors[id];
        if e.instantiated {
          var cnt := e.cnt - 1;
          if cnt == 0 {
            adaptors := adaptors[id := e.(cnt := 0, instantiated := false)];
          } else {
            adaptors := adaptors[id := e.(cnt := cnt)];
          }
        } else {
          errorCode := SmNotInstantiated;
        }
      } else {
        errorCode := SmIdNotRegistered;
      }
    }

    /** getAdaptorCount: the adaptor's reference count, 0 for an unknown one. */
    function AdaptorCount(typeName: string): (n: int)
      reads this`adaptors
      ensures CountsValid() ==> n >= 0
      ensures typeName !in adaptors ==> n == 0
      ensures CountsValid() && typeName in adaptors ==> (n > 0 <==> adaptors[typeName].instantiated)
    {
      if typeName in adaptors then adaptors[typeName].cnt else 0
    }
  }
}
