// Model of OrientationMultiplexer (filters/orientationmultiplexer.cpp): a
// filter with three sinks (acceleration, magnetic field, angular velocity)
// that buffers one value per sink and, when a value arrives while the other
// two are buffered, joins the three into one AccMagGyrData and propagates
// it. AccMagGyrData is not part of this model; it is taken as the three
// copied x, y, z triples.
module OrientationMultiplexer {
  import opened XyzData

  datatype Vector = Vector(x: int, y: int, z: int)

  /** The joined sample: the x, y, z of each of the three inputs (timestamps are not copied). */
  datatype AccMagGyr = AccMagGyr(acc: Vector, mag: Vector, gyr: Vector)

  function VectorOf(d: TimedXyzData): Vector
  {
    Vector(d.x, d.y, d.z)
  }

  /** The three sinks of the filter, by the name they are added under. */
  datatype Sink = Acceleration | MagneticField | AngularVelocity

  /** The filter's fields, and the samples propagated to its source so far. */
  datatype State = State(
    accelerationAvailable: bool, accelerationBuffer: TimedXyzData,
    magneticFieldAvailable: bool, magneticFieldBuffer: TimedXyzData,
    angularVelocityAvailable: bool, angularVelocityBuffer: TimedXyzData,
    propagated: seq<AccMagGyr>)

  /** The constructor's state: nothing buffered, every buffer (0, 0, 0, 0). */
  function Initial(): (s: State)
    ensures !s.accelerationAvailable && !s.magneticFieldAvailable && !s.angularVelocityAvailable
    ensures s.propagated == []
  {
    var zero := TimedXyzData(0, 0, 0, 0);
    State(false, zero, false, zero, false, zero, [])
  }

  /** Never are all three values buffered at once: the third one is joined instead. */
  predicate NotAllBuffered(s: State)
  {
    !(s.accelerationAvailable && s.magneticFieldAvailable && s.angularVelocityAvailable)
  }

  /** outputter(acceleration, magneticField, angularVelocity): propagate the joined values and clear every flag. */
  function Output(s: State, acc: TimedXyzData, mag: TimedXyzData, gyr: TimedXyzData): (r: State)
    ensures !r.accelerationAvailable && !r.magneticFieldAvailable && !r.angularVelocityAvailable
    ensures r.propagated == s.propagated + [AccMagGyr(VectorOf(acc), VectorOf(mag), VectorOf(gyr))]
    ensures r.accelerationBuffer == s.accelerationBuffer && r.magneticFieldBuffer == s.magneticFieldBuffer
    ensures r.angularVelocityBuffer == s.angularVelocityBuffer
  {
    s.(accelerationAvailable := false, magneticFieldAvailable := false, angularVelocityAvailable := false,
       propagated := s.propagated + [AccMagGyr(VectorOf(acc), VectorOf(mag), VectorOf(gyr))])
  }

  /**
   * accelerationAvailable(1, v): with the other two buffered, v is joined
   * with them and not stored; otherwise v is buffered and its flag set.
   */
  function AccelerationStep(s: State, v: TimedXyzData): (r: State)
    ensures s.magneticFieldAvailable && s.angularVelocityAvailable ==>
      r == Output(s, v, s.magneticFieldBuffer, s.angularVelocityBuffer) && r.accelerationBuffer == s.accelerationBuffer
    ensures !(s.magneticFieldAvailable && s.angularVelocityAvailable) ==>
      r == s.(accelerationBuffer := v, accelerationAvailable := true) && r.propagated == s.propagated
    ensures NotAllBuffered(r)
  {
    if s.magneticFieldAvailable && s.angularVelocityAvailable then
      Output(s, v, s.magneticFieldBuffer, s.angularVelocityBuffer)
    else
      s.(accelerationBuffer := v, accelerationAvailable := true)
  }

  /** magneticFieldAvailable(1, v), likewise. */
  function MagneticFieldStep(s: State, v: TimedXyzData): (r: State)
    ensures s.accelerationAvailable && s.angularVelocityAvailable ==>
      r == Output(s, s.accelerationBuffer, v, s.angularVelocityBuffer) && r.magneticFieldBuffer == s.magneticFieldBuffer
    ensures !(s.accelerationAvailable && s.angularVelocityAvailable) ==>
      r == s.(magneticFieldBuffer := v, magneticFieldAvailable := true) && r.propagated == s.propagated
    ensures NotAllBuffered(r)
  {
    if s.accelerationAvailable && s.angularVelocityAvailable then
      Output(s, s.accelerationBuffer, v, s.angularVelocityBuffer)
    else
      s.(magneticFieldBuffer := v, magneticFieldAvailable := true)
  }

  /** angularVelocityAvailable(1, v), likewise. */
  function AngularVelocityStep(s: State, v: TimedXyzData): (r: State)
    ensures s.accelerationAvailable && s.magneticFieldAvailable ==>
      r == Output(s, s.accelerationBuffer, s.magneticFieldBuffer, v) && r.angularVelocityBuffer == s.angularVelocityBuffer
    ensures !(s.accelerationAvailable && s.magneticFieldAvailable) ==>
      r == s.(angularVelocityBuffer := v, angularVelocityAvailable := true) && r.propagated == s.propagated
    ensures NotAllBuffered(r)
  {
    if s.accelerationAvailable && s.magneticFieldAvailable then
      Output(s, s.accelerationBuffer, s.magneticFieldBuffer, v)
    else
      s.(angularVelocityBuffer := v, angularVelocityAvailable := true)
  }

  /** The handler a sink is meant to call: each sink its own. */
  function Handler(sink: Sink): Sink
  {
    sink
  }

  /** The sink wiring of the constructor as written: the acceleration sink calls the angular-velocity handler. */
  function HandlerAsWritten(sink: Sink): (h: Sink)
    ensures h != Acceleration
    ensures sink != Acceleration ==> h == sink
  {
    if sink == Acceleration then AngularVelocity else sink
  }

  /**
   * One value delivered to a handler: at most one joined sample is
   * propagated, what was propagated before stays, and only the acceleration
   * handler can raise the acceleration flag.
   */
  function Handle(s: State, handler: Sink, v: TimedXyzData): (r: State)
    ensures |s.propagated| <= |r.propagated| <= |s.propagated| + 1
    ensures r.propagated[..|s.propagated|] == s.propagated
    ensures handler != Acceleration && !s.accelerationAvailable ==> !r.accelerationAvailable
    ensures NotAllBuffered(r)
  {
    match handler
    case Acceleration => AccelerationStep(s, v)
    case MagneticField => MagneticFieldStep(s, v)
    case AngularVelocity => AngularVelocityStep(s, v)
  }

  /** A sequence of values, each arriving at a sink, delivered under the intended wiring. */
  function Run(s: State, events: seq<(Sink, TimedXyzData)>): (r: State)
    ensures |r.propagated| <= |s.propagated| + |events|
    decreases |events|
  {
    if events == [] then s
    else Run(Handle(s, Handler(events[0].0), events[0].1), events[1..])
  }

  /** The same sequence delivered under the wiring as written. */
  function RunAsWritten(s: State, events: seq<(Sink, TimedXyzData)>): (r: State)
    ensures |s.propagated| <= |r.propagated| <= |s.propagated| + |events|
    ensures r.propagated[..|s.propagated|] == s.propagated
    decreases |events|
  {
    if events == [] then s
    else
      var h := Handle(s, HandlerAsWritten(events[0].0), events[0].1);
      var r := RunAsWritten(h, events[1..]);
      assert r.propagated[..|s.propagated|] == r.propagated[..|h.propagated|][..|s.propagated|];
      r
  }

  /**
   * With the wiring as written, the acceleration flag is never set, so no
   * handler ever finds the other two values buffered and nothing is ever
   * propagated, whatever arrives.
   */
  lemma {:induction false} AsWrittenNeverPropagates(s: State, events: seq<(Sink, TimedXyzData)>)
    requires !s.accelerationAvailable
    ensures RunAsWritten(s, events).propagated == s.propagated
    ensures !RunAsWritten(s, events).accelerationAvailable
    decreases |events|
  {
    if events != [] {
      AsWrittenNeverPropagates(Handle(s, HandlerAsWritten(events[0].0), events[0].1), events[1..]);
    }
  }

  /** The value that arrives at `sink` among three events. */
  function ValueAt(events: seq<(Sink, TimedXyzData)>, sink: Sink): TimedXyzData
    requires |events| == 3
  {
    if events[0].0 == sink then events[0].1 else if events[1].0 == sink then events[1].1 else events[2].1
  }

  /**
   * Under the intended wiring, with nothing buffered, one value at each of
   * the three sinks, in any order of arrival, is joined into exactly one
   * sample, and nothing stays buffered.
   */
  lemma OneOfEachJoins(s: State, events: seq<(Sink, TimedXyzData)>)
    requires !s.accelerationAvailable && !s.magneticFieldAvailable && !s.angularVelocityAvailable
    requires |events| == 3 && events[0].0 != events[1].0 && events[0].0 != events[2].0 && events[1].0 != events[2].0
    ensures Run(s, events).propagated == s.propagated +
      [AccMagGyr(VectorOf(ValueAt(events, Acceleration)), VectorOf(ValueAt(events, MagneticField)),
                 VectorOf(ValueAt(events, AngularVelocity)))]
    ensures var r := Run(s, events); !r.accelerationAvailable && !r.magneticFieldAvailable && !r.angularVelocityAvailable
  {
    var s1 := Handle(s, events[0].0, events[0].1);
    var s2 := Handle(s1, events[1].0, events[1].1);
    assert Run(s, events) == Run(s1, events[1..]);
    assert Run(s1, events[1..]) == Run(s2, events[2..]);
    assert Run(s2, events[2..]) == Handle(s2, events[2].0, events[2].1);
  }

  class Multiplexer {
    var accelerationAvailable: bool
    var accelerationBuffer: TimedXyzData
    var magneticFieldAvailable: bool
    var magneticFieldBuffer: TimedXyzData
    var angularVelocityAvailable: bool
    var angularVelocityBuffer: TimedXyzData
    /** What accMagGyrSource_ has propagated. */
    var propagated: seq<AccMagGyr>

    ghost function Snapshot(): State
      reads this
    {
      State(accelerationAvailable, accelerationBuffer, magneticFieldAvailable, magneticFieldBuffer,
            angularVelocityAvailable, angularVelocityBuffer, propagated)
    }

    ghost predicate Valid()
      reads this
    {
      NotAllBuffered(Snapshot())
    }

    constructor ()
      ensures Valid() && Snapshot() == Initial()
    {
      accelerationAvailable, magneticFieldAvailable, angularVelocityAvailable := false, false, false;
      accelerationBuffer := TimedXyzData(0, 0, 0, 0);
      magneticFieldBuffer := TimedXyzData(0, 0, 0, 0);
      angularVelocityBuffer := TimedXyzData(0, 0, 0, 0);
      propagated := [];
    }

    /** A value arriving at a sink runs the handler the sink is meant to call. */
    method Receive(sink: Sink, v: TimedXyzData)
      requires Valid()
      modifies this
      ensures Valid() && Snapshot() == Handle(old(Snapshot()), Handler(sink), v)
    {
      match sink
      case Acceleration => AccelerationAvailable(v);
      case MagneticField => MagneticFieldAvailable(v);
      case AngularVelocity => AngularVelocityAvailable(v);
    }

    method AccelerationAvailable(v: TimedXyzData)
      requires Valid()
      modifies this
      ensures Valid() && Snapshot() == AccelerationStep(old(Snapshot()), v)
    {
      if magneticFieldAvailable && angularVelocityAvailable {
        Outputter(v, magneticFieldBuffer, angularVelocityBuffer);
      } else {
        accelerationBuffer := v;
        accelerationAvailable := true;
      }
    }

    method MagneticFieldAvailable(v: TimedXyzData)
      requires Valid()
      modifies this
      ensures Valid() && Snapshot() == MagneticFieldStep(old(Snapshot()), v)
    {
      if accelerationAvailable && angularVelocityAvailable {
        Outputter(accelerationBuffer, v, angularVelocityBuffer);
      } else {
        magneticFieldBuffer := v;
        magneticFieldAvailable := true;
      }
    }

    method AngularVelocityAvailable(v: TimedXyzData)
      requires Valid()
      modifies this
      ensures Valid() && Snapshot() == AngularVelocityStep(old(Snapshot()), v)
    {
      if accelerationAvailable && magneticFieldAvailable {
        Outputter(accelerationBuffer, magneticFieldBuffer, v);
      } else {
        angularVelocityBuffer := v;
        angularVelocityAvailable := true;
      }
    }

    method Outputter(acc: TimedXyzData, mag: TimedXyzData, gyr: TimedXyzData)
      modifies this`propagated, this`accelerationAvailable, this`magneticFieldAvailable, this`angularVelocityAvailable
      ensures Snapshot() == Output(old(Snapshot()), acc, mag, gyr)
    {
      var joined := AccMagGyr(Vector(acc.x, acc.y, acc.z), Vector(mag.x, mag.y, mag.z), Vector(gyr.x, gyr.y, gyr.z));
      propagated := propagated + [joined];
      accelerationAvailable := false;
      magneticFieldAvailable := false;
      angularVelocityAvailable := false;
    }
  }
}
