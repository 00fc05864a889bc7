// Model of ScreenInterpreterFilter (sensors/contextplugin): the context
// filter that derives the Screen.TopEdge and Screen.IsCovered properties from
// accelerometer samples, relative to a running average of the acceleration
// magnitude. Doubles are modelled as reals; the square root of the squared
// length is passed in as `magnitude`.
module ScreenInterpreter {
  import opened Common

  /** 1/sqrt(2), "half-way". */
  const THRESHOLD: real := 0.707
  /** 10 %. */
  const HYSTERESIS: real := 0.1
  /** Earth's gravity in mG, the average before any sample. */
  const INITIAL_AVERAGE: real := 1000.0

  datatype TimedXyzData = TimedXyzData(timestamp: U64, x: int, y: int, z: int)

  /** What provideScreenData decides for one sample: "" means "keep the previous edge". */
  datatype Decision = Decision(topEdge: string, isCovered: bool)

  predicate IsEdgeName(e: string)
  {
    e == "top" || e == "bottom" || e == "right" || e == "left"
  }

  /**
   * The branch decision of provideScreenData for the updated running average
   * `avg`. With A = avg * THRESHOLD: covered only when z < -A(1+h); an edge
   * only when |z| < A(1-h), picked by the dominant one of |x| and |y|.
   */
  function Decide(avg: real, x: int, y: int, z: int): (r: Decision)
    requires avg >= 0.0
    ensures r.isCovered <==> (z as real) < -avg * THRESHOLD * (1.0 + HYSTERESIS)
    ensures r.topEdge == "" || IsEdgeName(r.topEdge)
    ensures r.topEdge != "" ==> (Abs(z) as real) < avg * THRESHOLD * (1.0 - HYSTERESIS)
    ensures (Abs(z) as real) < avg * THRESHOLD * (1.0 - HYSTERESIS) ==>
      if (Abs(y) as real) > (Abs(x) as real) * (1.0 + HYSTERESIS) then r.topEdge == (if y > 0 then "top" else "bottom")
      else if (Abs(x) as real) > (Abs(y) as real) * (1.0 + HYSTERESIS) then r.topEdge == (if x > 0 then "right" else "left")
      else r.topEdge == ""
  {
    var a := avg * THRESHOLD;
    if (z as real) > a * (1.0 + HYSTERESIS) then Decision("", false)
    else if (Abs(z) as real) < a * (1.0 - HYSTERESIS) then
      var edge :=
        if (Abs(y) as real) > (Abs(x) as real) * (1.0 + HYSTERESIS) then (if y > 0 then "top" else "bottom")
        else if (Abs(x) as real) > (Abs(y) as real) * (1.0 + HYSTERESIS) then (if x > 0 then "right" else "left")
        else "";
      Decision(edge, false)
    else if (z as real) < -1.0 * a * (1.0 + HYSTERESIS) then Decision("", true)
    else Decision("", false)
  }

  /** The running average moves half-way towards each new magnitude. */
  function NextAverage(avg: real, magnitude: real): (r: real)
    ensures avg <= magnitude ==> avg <= r <= magnitude
    ensures magnitude <= avg ==> magnitude <= r <= avg
    ensures r - avg == magnitude - r
  {
    (avg + magnitude) / 2.0
  }

  /**
   * The samples of the orientation context test, classified with any running
   * average between 300 and 1200 mG (they all have a magnitude close to 1 G).
   */
  lemma OrientationTestSamples(avg: real)
    requires 300.0 <= avg <= 1200.0
    ensures Decide(avg, 60, 960, 18).topEdge == "top"
    ensures Decide(avg, 936, 162, 180).topEdge == "right"
    ensures Decide(avg, 72, -990, -162).topEdge == "bottom"
    ensures Decide(avg, -954, -90, -36).topEdge == "left"
    ensures !Decide(avg, -36, -90, 953).isCovered
    ensures Decide(avg, 270, 216, -972).isCovered
  {
  }

  /** The filter object, with the two context properties it writes. */
  class ScreenInterpreterFilter {
    var averageAcceleration: real
    /** Last value written to Screen.TopEdge, None while never written. */
    var topEdgeProperty: Option<string>
    /** Last value written to Screen.IsCovered, None while never written. */
    var isCoveredProperty: Option<bool>

    ghost predicate Valid()
      reads this
    {
      averageAcceleration >= 0.0 &&
      (topEdgeProperty.Some? ==> IsEdgeName(topEdgeProperty.value))
    }

    constructor ()
      ensures Valid()
      ensures averageAcceleration == INITIAL_AVERAGE
      ensures topEdgeProperty == None && isCoveredProperty == None
    {
      averageAcceleration := INITIAL_AVERAGE;
      topEdgeProperty := None;
      isCoveredProperty := None;
    }

    /**
     * provideScreenData: update the average, then write isCovered always and
     * the top edge only when one was decided.
     */
    method ProvideScreenData(x: int, y: int, z: int, magnitude: real)
      requires Valid()
      requires magnitude >= 0.0 && magnitude * magnitude == (x * x + y * y + z * z) as real
      modifies this
      ensures Valid()
      ensures averageAcceleration == NextAverage(old(averageAcceleration), magnitude)
      ensures var d := Decide(averageAcceleration, x, y, z);
        && isCoveredProperty == Some(d.isCovered)
        && topEdgeProperty == (if d.topEdge != "" then Some(d.topEdge) else old(topEdgeProperty))
    {
      averageAcceleration := NextAverage(averageAcceleration, magnitude);
      var d := Decide(averageAcceleration, x, y, z);
      if d.topEdge != "" {
        topEdgeProperty := Some(d.topEdge);
      }
      isCoveredProperty := Some(d.isCovered);
    }

    /** interpret: classify the sample and propagate it unchanged. */
    method Interpret(data: TimedXyzData, magnitude: real) returns (out: TimedXyzData)
      requires Valid()
      requires magnitude >= 0.0 && magnitude * magnitude == (data.x * data.x + data.y * data.y + data.z * data.z) as real
      modifies this
      ensures Valid() && out == data
      ensures averageAcceleration == NextAverage(old(averageAcceleration), magnitude)
      ensures var d := Decide(averageAcceleration, data.x, data.y, data.z);
        && isCoveredProperty == Some(d.isCovered)
        && topEdgeProperty == (if d.topEdge != "" then Some(d.topEdge) else old(topEdgeProperty))
    {
      ProvideScreenData(data.x, data.y, data.z, magnitude);
      out := data;
    }
  }
}
