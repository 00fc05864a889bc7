// The parts SensorManager shares between the daemon (sensord/sensormanager.cpp)
// and the core library (core/sensormanager.cpp): the error codes it reports
// and the reference-counted instance entries of its chain and device-adaptor
// registries (ChainInstanceEntry, DeviceAdaptorInstanceEntry in
// core/sensormanager.h). An entry records only whether its instance
// exists.
module Registry {
  import opened Common

  /** The SensorManagerError values the registries report. */
  datatype Error =
    | SmNoError
    | SmIdNotRegistered
    | SmFactoryNotRegistered
    | SmAlreadyUnderControl
    | SmNotInstantiated
    | SmCanNotRegisterObject
    | SmAdaptorNotStarted

  /**
   * releaseSensor as both managers write it: the sensor's channel is used
   * before the check for a sensor nobody holds, so without a channel the
   * release is a null dereference, here None; with one it is the intended
   * release.
   */
  function ReleaseAsWritten<R>(instantiated: bool, intended: R): (r: Option<R>)
    ensures r.None? <==> !instantiated
    ensures r.Some? ==> r.value == intended
  {
    if !instantiated then None else Some(intended)
  }

  /** A chain or device adaptor entry: its type, its reference count and whether it is instantiated. */
  datatype Counted = Counted(typeName: string, cnt: int, instantiated: bool)

  /** A freshly registered entry: no instance and a count of 0. */
  function Registered(typeName: string): (e: Counted)
    ensures CountedValid(e) && !e.instantiated && e.typeName == typeName
  {
    Counted(typeName, 0, false)
  }

  /** The instance exists exactly while it is referenced. */
  predicate CountedValid(e: Counted)
  {
    e.cnt >= 0 && (e.instantiated <==> e.cnt > 0)
  }

  /** The outcome of a request: the new entry, whether an instance is handed out and the error set. */
  datatype Acquired = Acquired(entry: Counted, instance: bool, error: Error)

  /**
   * requestChain / requestDeviceAdaptor on a registered entry: an existing
   * instance is shared, otherwise one is created when a factory is known for
   * the type (`known`) and it starts (`started`; a chain always does).
   */
  function Acquire(e: Counted, known: bool, started: bool): (r: Acquired)
    ensures r.instance <==> e.instantiated || (known && started)
    ensures r.entry.typeName == e.typeName
    ensures r.instance ==> r.entry.instantiated && r.entry.cnt == e.cnt + 1 && r.error == SmNoError
    ensures !r.instance ==> r.entry == e && r.error != SmNoError
    ensures CountedValid(e) ==> CountedValid(r.entry)
  {
    if e.instantiated then Acquired(e.(cnt := e.cnt + 1), true, SmNoError)
    else if !known then Acquired(e, false, SmFactoryNotRegistered)
    else if started then Acquired(e.(cnt := e.cnt + 1, instantiated := true), true, SmNoError)
    else Acquired(e, false, SmAdaptorNotStarted)
  }

  /**
   * releaseChain / releaseDeviceAdaptor on a registered entry: the count
   * drops by one and the instance is deleted when it reaches 0; an entry
   * without an instance reports SmNotInstantiated and is left alone. On a
   * valid entry the instance survives exactly while other references remain.
   */
  function Release(e: Counted): (r: (Counted, Error))
    ensures r.0.typeName == e.typeName
    ensures !e.instantiated ==> r == (e, SmNotInstantiated)
    ensures e.instantiated ==> r.1 == SmNoError && r.0.cnt == e.cnt - 1
    ensures CountedValid(e) ==> CountedValid(r.0) && (e.instantiated ==> (r.0.instantiated <==> e.cnt > 1))
  {
    if !e.instantiated then (e, SmNotInstantiated)
    else if e.cnt - 1 == 0 then (e.(cnt := 0, instantiated := false), SmNoError)
    else (e.(cnt := e.cnt - 1), SmNoError)
  }

  /** A release undoes the request it matches. */
  lemma ReleaseUndoesAcquire(e: Counted, known: bool, started: bool)
    requires CountedValid(e) && Acquire(e, known, started).instance
    ensures Release(Acquire(e, known, started).entry) == (e, SmNoError)
  {
  }
}
