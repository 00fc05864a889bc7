// Model of the daemon's SensorManager (sensord/sensormanager.cpp): the
// registry of logical sensors with one controlling session and any number of
// listen sessions each, and the reference-counted chain and device-adaptor
// registries. A channel, chain or adaptor instance is modelled by whether the
// instance exists; what its factory, isValid(), startAdaptor() and the D-Bus
// object registration report are parameters.
module SensordManager {
  import opened Common
  import opened Registry
  import opened PropertyHandler

  const INVALID_SESSION: int := -1

  /**
   * SensorInstanceEntry of the daemon: the sensor's type, its controlling
   * session (INVALID_SESSION when none), its listen sessions in the order
   * they came and whether its channel exists.
   */
  datatype SensorEntry = SensorEntry(typeName: string, controllingSession: int, listenSessions: seq<int>, instantiated: bool)

  /** A registered sensor nobody has requested yet. */
  function NewSensorEntry(typeName: string): (e: SensorEntry)
    ensures Unused(e) && !e.instantiated && e.typeName == typeName
  {
    SensorEntry(typeName, INVALID_SESSION, [], false)
  }

  /** Whether session s holds the sensor, for control or for listening. */
  predicate HasSession(e: SensorEntry, s: int)
  {
    (e.controllingSession >= 0 && e.controllingSession == s) || s in e.listenSessions
  }

  predicate Unused(e: SensorEntry)
  {
    e.controllingSession < 0 && e.listenSessions == []
  }

  /**
   * The invariant of one entry once the session ids 1..issued have been
   * handed out: every session is one of those, no session is recorded twice,
   * and the channel exists exactly while some session holds the sensor.
   */
  ghost predicate EntryValid(e: SensorEntry, issued: int)
  {
    && (e.controllingSession == INVALID_SESSION || 0 < e.controllingSession <= issued)
    && (forall s :: s in e.listenSessions ==> 0 < s <= issued)
    && NoDuplicates(e.listenSessions)
    && e.controllingSession !in e.listenSessions
    && (e.instantiated <==> !Unused(e))
  }

  lemma EntryValidLater(e: SensorEntry, issued: int, later: int)
    requires EntryValid(e, issued) && issued <= later
    ensures EntryValid(e, later)
  {
  }

  /** The outcome of addSensor: the new entry, whether a channel is handed out and the error set. */
  datatype Added = Added(entry: SensorEntry, created: bool, error: Error)

  /**
   * addSensor for a sensor nobody holds: without a factory for its type
   * nothing happens; a channel that is not valid is dropped silently;
   * otherwise the channel is kept and the session recorded, even when the
   * D-Bus registration then fails and no channel is handed out.
   */
  function AddSensorStep(e: SensorEntry, sessionId: int, controlling: bool, known: bool, valid: bool, busOk: bool): (r: Added)
    ensures r.created <==> known && valid && busOk
    ensures !(known && valid) ==> r.entry == e
    ensures r.error == SmNoError <==> known && (valid ==> busOk)
    ensures known && valid ==>
      && r.entry.instantiated && r.entry.typeName == e.typeName
      && r.entry.controllingSession == (if controlling then sessionId else e.controllingSession)
      && r.entry.listenSessions == (if controlling then e.listenSessions else e.listenSessions + [sessionId])
  {
    if !known then Added(e, false, SmFactoryNotRegistered)
    else if !valid then Added(e, false, SmNoError)
    else
      var held := if controlling then e.(controllingSession := sessionId)
                  else e.(listenSessions := e.listenSessions + [sessionId]);
      Added(held.(instantiated := true), busOk, if busOk then SmNoError else SmCanNotRegisterObject)
  }

  /** The outcome of a request: the new entry, the session id returned and the error set. */
  datatype Granted = Granted(entry: SensorEntry, sessionId: int, error: Error)

  /**
   * requestControlSensor once the sensor is known to be registered and not
   * under control and the new session id s is drawn: with listeners the
   * session takes control of the existing channel, otherwise the channel is
   * created for it.
   */
  function RequestControlStep(e: SensorEntry, s: int, known: bool, valid: bool, busOk: bool): (r: Granted)
    ensures r.sessionId == s || r.sessionId == INVALID_SESSION
    ensures s != INVALID_SESSION ==> (r.sessionId == s <==> |e.listenSessions| > 0 || (known && valid && busOk))
    ensures r.sessionId != INVALID_SESSION ==> r.error == SmNoError && r.entry.controllingSession == s
    ensures r.entry != e ==> r.entry.controllingSession == s
    ensures r.entry.listenSessions == e.listenSessions && r.entry.typeName == e.typeName
  {
    if |e.listenSessions| > 0 then Granted(e.(controllingSession := s), s, SmNoError)
    else
      var a := AddSensorStep(e, s, true, known, valid, busOk);
      Granted(a.entry, if a.created then s else INVALID_SESSION, a.error)
  }

  /**
   * requestListenSensor once the sensor is known to be registered and the
   * new session id s is drawn: a sensor that some session holds gets one more
   * listener, otherwise the channel is created for it.
   */
  function RequestListenStep(e: SensorEntry, s: int, known: bool, valid: bool, busOk: bool): (r: Granted)
    ensures r.sessionId == s || r.sessionId == INVALID_SESSION
    ensures s != INVALID_SESSION ==>
      (r.sessionId == s <==> |e.listenSessions| > 0 || e.controllingSession >= 0 || (known && valid && busOk))
    ensures r.sessionId != INVALID_SESSION ==> r.error == SmNoError && r.entry.listenSessions == e.listenSessions + [s]
    ensures r.entry != e ==> r.entry.listenSessions == e.listenSessions + [s]
    ensures r.entry.controllingSession == e.controllingSession && r.entry.typeName == e.typeName
  {
    if |e.listenSessions| > 0 || e.controllingSession >= 0 then
      Granted(e.(listenSessions := e.listenSessions + [s]), s, SmNoError)
    else
      var a := AddSensorStep(e, s, false, known, valid, busOk);
      Granted(a.entry, if a.created then s else INVALID_SESSION, a.error)
  }

  /**
   * A control request on a valid, uncontrolled entry keeps it valid; the
   * session either holds control afterwards (and is returned unless the
   * D-Bus registration failed) or nothing changed and INVALID_SESSION is
   * returned.
   */
  lemma RequestControlSpec(e: SensorEntry, issued: int, known: bool, valid: bool, busOk: bool)
    requires issued >= 0 && EntryValid(e, issued) && e.controllingSession < 0
    ensures var r := RequestControlStep(e, issued + 1, known, valid, busOk);
      && EntryValid(r.entry, issued + 1)
      && (r.sessionId == issued + 1 || r.sessionId == INVALID_SESSION)
      && (r.sessionId == issued + 1 ==> r.error == SmNoError)
      && (r.entry == e || (r.entry.controllingSession == issued + 1 && r.entry.listenSessions == e.listenSessions))
      && (r.sessionId == issued + 1 ==> r.entry.controllingSession == issued + 1)
  {
    var r := RequestControlStep(e, issued + 1, known, valid, busOk);
    EntryValidLater(e, issued, issued + 1);
    if |e.listenSessions| == 0 {
      assert e.listenSessions == [];
    }
  }

  /**
   * A listen request on a valid entry keeps it valid; the session is either
   * appended as a listener or nothing changed and INVALID_SESSION is
   * returned.
   */
  lemma RequestListenSpec(e: SensorEntry, issued: int, known: bool, valid: bool, busOk: bool)
    requires issued >= 0 && EntryValid(e, issued)
    ensures var r := RequestListenStep(e, issued + 1, known, valid, busOk);
      && EntryValid(r.entry, issued + 1)
      && (r.sessionId == issued + 1 || r.sessionId == INVALID_SESSION)
      && (r.sessionId == issued + 1 ==> r.error == SmNoError)
      && (r.entry == e || (r.entry.listenSessions == e.listenSessions + [issued + 1] && r.entry.controllingSession == e.controllingSession))
      && (r.sessionId == issued + 1 ==> r.entry.listenSessions == e.listenSessions + [issued + 1])
  {
    var r := RequestListenStep(e, issued + 1, known, valid, busOk);
    EntryValidLater(e, issued, issued + 1);
    if r.entry != e {
      var l := e.listenSessions;
      assert issued + 1 !in l;
      AppendNewKeepsNoDuplicates(l, issued + 1);
    }
  }

  /** The outcome of releaseSensor on a registered sensor. */
  datatype Released = Released(entry: SensorEntry, ok: bool, error: Error)

  /**
   * releaseSensor on a registered sensor, with the check for a sensor that
   * no session holds made before the channel is used: the controlling
   * session gives up control, a listen session is dropped, and the channel
   * is removed when no session is left; any other session is refused.
   */
  function ReleaseStep(e: SensorEntry, s: int): (r: Released)
    ensures r.ok <==> HasSession(e, s)
    ensures !r.ok ==> r.entry == e && r.error == SmNotInstantiated
    ensures r.ok ==> r.error == SmNoError && r.entry.typeName == e.typeName
  {
    if Unused(e) then Released(e, false, SmNotInstantiated)
    else if e.controllingSession >= 0 && e.controllingSession == s then
      Released(e.(controllingSession := INVALID_SESSION, instantiated := e.listenSessions != []), true, SmNoError)
    else if s in e.listenSessions then
      var left := RemoveAll(e.listenSessions, s);
      Released(e.(listenSessions := left, instantiated := !(left == [] && e.controllingSession == INVALID_SESSION)), true, SmNoError)
    else Released(e, false, SmNotInstantiated)
  }

  /**
   * On a valid entry a release keeps it valid, takes away exactly that
   * session, and removes the channel exactly when no other session holds
   * the sensor; releasing the controlling session keeps the channel while
   * listeners remain.
   */
  lemma ReleaseSpec(e: SensorEntry, issued: int, s: int)
    requires EntryValid(e, issued)
    ensures var r := ReleaseStep(e, s);
      && EntryValid(r.entry, issued)
      && !HasSession(r.entry, s)
      && (forall t :: t != s ==> (HasSession(r.entry, t) <==> HasSession(e, t)))
      && (e.controllingSession == s && s >= 0 ==> (r.entry.instantiated <==> e.listenSessions != []))
  {
    var r := ReleaseStep(e, s);
    if !Unused(e) && !(e.controllingSession >= 0 && e.controllingSession == s) && s in e.listenSessions {
      var left := RemoveAll(e.listenSessions, s);
      RemoveAllKeepsNoDuplicates(e.listenSessions, s);
      RemoveAllMembers(e.listenSessions, s, s);
      RemoveAllMembers(e.listenSessions, s, e.controllingSession);
      forall t | t in left ensures 0 < t <= issued {
        RemoveAllMembers(e.listenSessions, s, t);
      }
      forall t | t != s ensures HasSession(r.entry, t) <==> HasSession(e, t) {
        RemoveAllMembers(e.listenSessions, s, t);
      }
      if left == [] {
        assert HasSession(e, s);
      }
    }
  }

  /** Releasing a session just granted control restores the entry. */
  lemma ReleaseUndoesControl(e: SensorEntry, issued: int, known: bool, valid: bool, busOk: bool)
    requires issued >= 0 && EntryValid(e, issued) && e.controllingSession < 0
    requires RequestControlStep(e, issued + 1, known, valid, busOk).sessionId == issued + 1
    ensures ReleaseStep(RequestControlStep(e, issued + 1, known, valid, busOk).entry, issued + 1) == Released(e, true, SmNoError)
  {
    RequestControlSpec(e, issued, known, valid, busOk);
  }

  /** Releasing a session just granted as a listener restores the entry. */
  lemma ReleaseUndoesListen(e: SensorEntry, issued: int, known: bool, valid: bool, busOk: bool)
    requires issued >= 0 && EntryValid(e, issued)
    requires RequestListenStep(e, issued + 1, known, valid, busOk).sessionId == issued + 1
    ensures ReleaseStep(RequestListenStep(e, issued + 1, known, valid, busOk).entry, issued + 1) == Released(e, true, SmNoError)
  {
    RequestListenSpec(e, issued, known, valid, busOk);
    var l := e.listenSessions;
    RemoveAllAppended(l, issued + 1);
  }

  /** On a valid entry the code as written fails exactly where no session holds the sensor. */
  lemma ReleaseAsWrittenFailsWhenUnused(e: SensorEntry, issued: int, s: int)
    requires EntryValid(e, issued)
    ensures ReleaseAsWritten(e.instantiated, ReleaseStep(e, s)).None? <==> Unused(e)
    ensures Unused(e) ==> ReleaseStep(e, s) == Released(e, false, SmNotInstantiated)
  {
  }

  /** Releasing any session of a sensor that was registered but never requested. */
  lemma ReleaseOfUnrequestedSensor()
    ensures ReleaseAsWritten(NewSensorEntry("accelerometersensor").instantiated,
                             ReleaseStep(NewSensorEntry("accelerometersensor"), 1)).None?
    ensures ReleaseStep(NewSensorEntry("accelerometersensor"), 1) == Released(NewSensorEntry("accelerometersensor"), false, SmNotInstantiated)
  {
  }

  class Manager {
    /** sensorInstanceMap_ */
    var sensors: map<string, SensorEntry>
    /** chainInstanceMap_ */
    var chains: map<string, Counted>
    /** deviceAdaptorInstanceMap_ */
    var adaptors: map<string, Counted>
    /** The types with a registered factory. */
    const sensorFactories: set<string>
    const chainFactories: set<string>
    const adaptorFactories: set<string>
    /** sessionIdCount_: the number of session ids handed out. */
    var sessionIdCount: int
    var errorCode: Error
    /** propertyHandler_ */
    const properties: Handler

    ghost predicate SensorsValid()
      reads this`sensors, this`sessionIdCount
    {
      sessionIdCount >= 0 && forall id :: id in sensors ==> EntryValid(sensors[id], sessionIdCount)
    }

    ghost predicate CountsValid()
      reads this`chains, this`adaptors
    {
      && (forall id :: id in chains ==> CountedValid(chains[id]))
      && (forall id :: id in adaptors ==> CountedValid(adaptors[id]))
    }

    /**
     * The daemon's registries as registered (sensord/sensormanager.h is not
     * part of this model): each id with its type, nothing instantiated.
     */
    constructor (sensorTypes: map<string, string>, chainTypes: map<string, string>, adaptorTypes: map<string, string>,
                 sensorFactories: set<string>, chainFactories: set<string>, adaptorFactories: set<string>)
      ensures SensorsValid() && CountsValid()
      ensures sensors == map id | id in sensorTypes :: NewSensorEntry(sensorTypes[id])
      ensures chains == map id | id in chainTypes :: Registered(chainTypes[id])
      ensures adaptors == map id | id in adaptorTypes :: Registered(adaptorTypes[id])
      ensures this.sensorFactories == sensorFactories && this.chainFactories == chainFactories
      ensures this.adaptorFactories == adaptorFactories
      ensures sessionIdCount == 0 && errorCode == SmNoError
      ensures fresh(properties) && properties.propertyMap == map[] && properties.notified == []
    {
      sensors := map id | id in sensorTypes :: NewSensorEntry(sensorTypes[id]);
      chains := map id | id in chainTypes :: Registered(chainTypes[id]);
      adaptors := map id | id in adaptorTypes :: Registered(adaptorTypes[id]);
      this.sensorFactories := sensorFactories;
      this.chainFactories := chainFactories;
      this.adaptorFactories := adaptorFactories;
      sessionIdCount := 0;
      errorCode := SmNoError;
      properties := new Handler();
    }

    /** createNewSessionId: every new session id is larger than all earlier ones. */
    method CreateNewSessionId() returns (sessionId: int)
      modifies this`sessionIdCount
      ensures sessionIdCount == old(sessionIdCount) + 1 && sessionId == sessionIdCount
    {
      sessionIdCount := sessionIdCount + 1;
      sessionId := sessionIdCount;
    }

    /** addSensor, given the id without its parameters: an unregistered id is refused with SmIdNotRegistered. */
    method AddSensor(cleanId: string, sessionId: int, controlling: bool, valid: bool, busOk: bool) returns (created: bool)
      modifies this`sensors, this`errorCode
      ensures cleanId !in old(sensors) ==> !created && sensors == old(sensors) && errorCode == SmIdNotRegistered
      ensures cleanId in old(sensors) ==>
        var r := AddSensorStep(old(sensors)[cleanId], sessionId, controlling,
                               old(sensors)[cleanId].typeName in sensorFactories, valid, busOk);
        sensors == old(sensors)[cleanId := r.entry] && created == r.created && errorCode == r.error
    {
      errorCode := SmNoError;
      if cleanId !in sensors {
        errorCode := SmIdNotRegistered;
        return false;
      }
      var e := sensors[cleanId];
      if e.typeName !in sensorFactories {
        errorCode := SmFactoryNotRegistered;
        return false;
      }
      if !valid {
        return false;
      }
      var held := if controlling then e.(controllingSession := sessionId)
                  else e.(listenSessions := e.listenSessions + [sessionId]);
      sensors := sensors[cleanId := held.(instantiated := true)];
      if !busOk {
        errorCode := SmCanNotRegisterObject;
        return false;
      }
      return true;
    }

    /** The entries other than `cleanId` stay valid when one more session id is issued. */
    lemma OthersStayValid(before: map<string, SensorEntry>, cleanId: string, e: SensorEntry)
      requires sessionIdCount >= 1
      requires forall id :: id in before ==> EntryValid(before[id], sessionIdCount - 1)
      requires EntryValid(e, sessionIdCount) && sensors == before[cleanId := e]
      ensures SensorsValid()
    {
      forall id | id in sensors ensures EntryValid(sensors[id], sessionIdCount) {
        if id != cleanId {
          EntryValidLater(before[id], sessionIdCount - 1, sessionIdCount);
        }
      }
    }

    /**
     * requestControlSensor: an unregistered id or a sensor already under
     * control gets INVALID_SESSION with the matching error and changes
     * nothing; otherwise a new session id is drawn and the request is made.
     */
    method RequestControlSensor(id: string, valid: bool, busOk: bool) returns (sessionId: int)
      requires SensorsValid()
      modifies this`sensors, this`errorCode, this`sessionIdCount
      ensures SensorsValid()
      ensures CleanId(id) !in old(sensors) ==>
        sessionId == INVALID_SESSION && errorCode == SmIdNotRegistered && sensors == old(sensors) && sessionIdCount == old(sessionIdCount)
      ensures CleanId(id) in old(sensors) && old(sensors)[CleanId(id)].controllingSession >= 0 ==>
        sessionId == INVALID_SESSION && errorCode == SmAlreadyUnderControl && sensors == old(sensors) && sessionIdCount == old(sessionIdCount)
      ensures CleanId(id) in old(sensors) && old(sensors)[CleanId(id)].controllingSession < 0 ==>
        var e := old(sensors)[CleanId(id)];
        var r := RequestControlStep(e, sessionIdCount, e.typeName in sensorFactories, valid, busOk);
        sessionIdCount == old(sessionIdCount) + 1 && sensors == old(sensors)[CleanId(id) := r.entry] &&
        sessionId == r.sessionId && errorCode == r.error
    {
      errorCode := SmNoError;
      var cleanId := CleanId(id);
      if cleanId !in sensors {
        errorCode := SmIdNotRegistered;
        return INVALID_SESSION;
      }
      var e := sensors[cleanId];
      if e.controllingSession >= 0 {
        errorCode := SmAlreadyUnderControl;
        return INVALID_SESSION;
      }
      ghost var before := sensors;
      var s := CreateNewSessionId();
      if |e.listenSessions| > 0 {
        sensors := sensors[cleanId := e.(controllingSession := s)];
        sessionId := s;
      } else {
        var created := AddSensor(cleanId, s, true, valid, busOk);
        sessionId := if created then s else INVALID_SESSION;
      }
      RequestControlSpec(e, s - 1, e.typeName in sensorFactories, valid, busOk);
      OthersStayValid(before, cleanId, sensors[cleanId]);
    }

    /**
     * requestListenSensor: an unregistered id gets INVALID_SESSION with
     * SmIdNotRegistered and changes nothing; otherwise a new session id is
     * drawn and the request is made.
     */
    method RequestListenSensor(id: string, valid: bool, busOk: bool) returns (sessionId: int)
      requires SensorsValid()
      modifies this`sensors, this`errorCode, this`sessionIdCount
      ensures SensorsValid()
      ensures CleanId(id) !in old(sensors) ==>
        sessionId == INVALID_SESSION && errorCode == SmIdNotRegistered && sensors == old(sensors) && sessionIdCount == old(sessionIdCount)
      ensures CleanId(id) in old(sensors) ==>
        var e := old(sensors)[CleanId(id)];
        var r := RequestListenStep(e, sessionIdCount, e.typeName in sensorFactories, valid, busOk);
        sessionIdCount == old(sessionIdCount) + 1 && sensors == old(sensors)[CleanId(id) := r.entry] &&
        sessionId == r.sessionId && errorCode == r.error
    {
      errorCode := SmNoError;
      var cleanId := CleanId(id);
      if cleanId !in sensors {
        errorCode := SmIdNotRegistered;
        return INVALID_SESSION;
      }
      var e := sensors[cleanId];
      ghost var before := sensors;
      var s := CreateNewSessionId();
      if |e.listenSessions| > 0 || e.controllingSession >= 0 {
        sensors := sensors[cleanId := e.(listenSessions := e.listenSessions + [s])];
        sessionId := s;
      } else {
        var created := AddSensor(cleanId, s, false, valid, busOk);
        sessionId := if created then s else INVALID_SESSION;
      }
      RequestListenSpec(e, s - 1, e.typeName in sensorFactories, valid, busOk);
      OthersStayValid(before, cleanId, sensors[cleanId]);
    }

    /**
     * releaseSensor (ids carry no parameters here): an unregistered id gets
     * false with SmIdNotRegistered; otherwise the session's property
     * requests are cleared and the release is made. The channel's own
     * clean-up (setStandbyOverrideRequest, removeDataRangeRequest) is what
     * NodeBase.Node models.
     */
    method ReleaseSensor(id: string, sessionId: int) returns (ok: bool)
      requires SensorsValid() && ';' !in id
      modifies this`sensors, this`errorCode, properties
      ensures SensorsValid()
      ensures id !in old(sensors) ==>
        !ok && errorCode == SmIdNotRegistered && sensors == old(sensors) &&
        properties.propertyMap == old(properties.propertyMap) && properties.notified == old(properties.notified)
      ensures id in old(sensors) ==>
        var r := ReleaseStep(old(sensors)[id], sessionId);
        sensors == old(sensors)[id := r.entry] && ok == r.ok && errorCode == r.error
      ensures id in old(sensors) ==>
        && ClearedUnder(properties.propertyMap, old(properties.propertyMap), old(properties.propertyMap).Keys, sessionId)
        && |properties.notified| >= |old(properties.notified)|
        && properties.notified[..|old(properties.notified)|] == old(properties.notified)
        && SignalledUnder(properties.notified[|old(properties.notified)|..], old(properties.propertyMap),
                          old(properties.propertyMap).Keys, sessionId)
    {
      errorCode := SmNoError;
      if id !in sensors {
        errorCode := SmIdNotRegistered;
        return false;
      }
      properties.ClearRequests(sessionId);
      var e := sensors[id];
      ReleaseSpec(e, sessionIdCount, sessionId);
      if e.controllingSession < 0 && e.listenSessions == [] {
        errorCode := SmNotInstantiated;
        return false;
      }
      if e.controllingSession >= 0 && e.controllingSession == sessionId {
        if e.listenSessions == [] {
          sensors := sensors[id := e.(controllingSession := INVALID_SESSION, instantiated := false)];
        } else {
          sensors := sensors[id := e.(controllingSession := INVALID_SESSION)];
        }
        ok := true;
      } else if sessionId in e.listenSessions {
        var left := RemoveAll(e.listenSessions, sessionId);
        if left == [] && e.controllingSession == INVALID_SESSION {
          sensors := sensors[id := e.(listenSessions := left, instantiated := false)];
        } else {
          sensors := sensors[id := e.(listenSessions := left)];
        }
        ok := true;
      } else {
        errorCode := SmNotInstantiated;
        ok := false;
      }
    }

    /** requestChain: a chain is shared by reference count and created on first use. */
    method RequestChain(id: string) returns (instance: bool)
      requires CountsValid()
      modifies this`chains, this`errorCode
      ensures CountsValid()
      ensures id !in old(chains) ==> !instance && errorCode == SmIdNotRegistered && chains == old(chains)
      ensures id in old(chains) ==>
        var r := Acquire(old(chains)[id], old(chains)[id].typeName in chainFactories, true);
        chains == old(chains)[id := r.entry] && instance == r.instance && errorCode == r.error
    {
      errorCode := SmNoError;
      if id in chains {
        var e := chains[id];
        if e.instantiated {
          chains := chains[id := e.(cnt := e.cnt + 1)];
          instance := true;
        } else if e.typeName in chainFactories {
          chains := chains[id := e.(cnt := e.cnt + 1, instantiated := true)];
          instance := true;
        } else {
          errorCode := SmFactoryNotRegistered;
          instance := false;
        }
      } else {
        errorCode := SmIdNotRegistered;
        instance := false;
      }
    }

    /** releaseChain: the chain is deleted with its last reference. */
    method ReleaseChain(id: string)
      requires CountsValid()
      modifies this`chains, this`errorCode
      ensures CountsValid()
      ensures id !in old(chains) ==> errorCode == SmIdNotRegistered && chains == old(chains)
      ensures id in old(chains) ==>
        chains == old(chains)[id := Release(old(chains)[id]).0] && errorCode == Release(old(chains)[id]).1
    {
      errorCode := SmNoError;
      if id in chains {
        var e := chains[id];
        if e.instantiated {
          var cnt := e.cnt - 1;
          if cnt == 0 {
            chains := chains[id := e.(cnt := 0, instantiated := false)];
          } else {
            chains := chains[id := e.(cnt := cnt)];
          }
        } else {
          errorCode := SmNotInstantiated;
        }
      } else {
        errorCode := SmIdNotRegistered;
      }
    }

    /**
     * requestDeviceAdaptor (ids carry no parameters here): an adaptor is
     * shared by reference count and created on first use if it starts.
     */
    method RequestDeviceAdaptor(id: string, started: bool) returns (instance: bool)
      requires CountsValid() && ';' !in id
      modifies this`adaptors, this`errorCode
      ensures CountsValid()
      ensures id !in old(adaptors) ==> !instance && errorCode == SmIdNotRegistered && adaptors == old(adaptors)
      ensures id in old(adaptors) ==>
        var r := Acquire(old(adaptors)[id], old(adaptors)[id].typeName in adaptorFactories, started);
        adaptors == old(adaptors)[id := r.entry] && instance == r.instance && errorCode == r.error
    {
      errorCode := SmNoError;
      if id in adaptors {
        var e := adaptors[id];
        if e.instantiated {
          adaptors := adaptors[id := e.(cnt := e.cnt + 1)];
          instance := true;
        } else if e.typeName in adaptorFactories {
          if started {
            adaptors := adaptors[id := e.(cnt := e.cnt + 1, instantiated := true)];
            instance := true;
          } else {
            errorCode := SmAdaptorNotStarted;
            instance := false;
          }
        } else {
          errorCode := SmFactoryNotRegistered;
          instance := false;
        }
      } else {
        errorCode := SmIdNotRegistered;
        instance := false;
      }
    }

    /** releaseDeviceAdaptor: the adaptor is stopped and deleted with its last reference. */
    method ReleaseDeviceAdaptor(id: string)
      requires CountsValid() && ';' !in id
      modifies this`adaptors, this`errorCode
      ensures CountsValid()
      ensures id !in old(adaptors) ==> errorCode == SmIdNotRegistered && adaptors == old(adaptors)
      ensures id in old(adaptors) ==>
        adaptors == old(adaptors)[id := Release(old(adaptors)[id]).0] && errorCode == Release(old(adaptors)[id]).1
    {
      errorCode := SmNoError;
      if id in adaptors {
        var e := adaptors[id];
        if e.instantiated {
          var cnt := e.cnt - 1;
          if cnt == 0 {
            adaptors := adaptors[id := e.(cnt := 0, instantiated := false)];
          } else {
            adaptors := adaptors[id := e.(cnt := cnt)];
          }
        } else {
          errorCode := SmNotInstantiated;
        }
      } else {
        errorCode := SmIdNotRegistered;
      }
    }
  }
}
