// Model of StabilityFilter (sensors/contextplugin): from a (mean, variance)
// pair it maintains two context properties, "stable" and "shaky"
// (unstableProperty), each with a hysteresis band around its threshold. A
// single-shot timer sets "stable" after a quiet period; the timer is modelled
// by whether it runs and with which interval.
module StabilityFilter {
  import opened Common

  /** Seconds of quiet before the timer declares the device stable. */
  const DEFAULT_TIMEOUT: int := 60

  datatype Timer = Stopped | Running(interval: int)

  /** The "stable" property after a sample with the given variance. */
  function NextStable(stable: Option<bool>, variance: real, low: real, h: real): (r: Option<bool>)
    ensures variance < low * (1.0 - h) ==> r == Some(true)
    ensures variance >= low * (1.0 - h) && variance > low * (1.0 + h) ==> r == Some(false)
    ensures low * (1.0 - h) <= variance <= low * (1.0 + h) ==> r == stable
  {
    if variance < low * (1.0 - h) then Some(true)
    else if variance > low * (1.0 + h) then Some(false)
    else stable
  }

  /** The "shaky" property after a sample with the given variance. */
  function NextUnstable(unstable: Option<bool>, variance: real, high: real, h: real): (r: Option<bool>)
    ensures variance < high * (1.0 - h) ==> r == Some(false)
    ensures variance >= high * (1.0 - h) && variance > high * (1.0 + h) ==> r == Some(true)
    ensures high * (1.0 - h) <= variance <= high * (1.0 + h) ==> r == unstable
  {
    if variance < high * (1.0 - h) then Some(false)
    else if variance > high * (1.0 + h) then Some(true)
    else unstable
  }

  /** The "stable" property after a run of samples with the given variances. */
  function StableAfter(stable: Option<bool>, variances: seq<real>, low: real, h: real): Option<bool>
    decreases |variances|
  {
    if variances == [] then stable
    else StableAfter(NextStable(stable, variances[0], low, h), variances[1..], low, h)
  }

  /**
   * Hysteresis: once "stable" is true, variances that never rise above
   * low(1+h) keep it true, however long they stay above low(1-h).
   */
  lemma {:induction false} StableInsideBand(variances: seq<real>, low: real, h: real)
    requires forall i :: 0 <= i < |variances| ==> variances[i] <= low * (1.0 + h)
    ensures StableAfter(Some(true), variances, low, h) == Some(true)
  {
    if variances != [] {
      assert NextStable(Some(true), variances[0], low, h) == Some(true);
      StableInsideBand(variances[1..], low, h);
    }
  }

  /** Likewise, once "stable" is false, variances never below low(1-h) keep it false. */
  lemma {:induction false} UnstableInsideBand(variances: seq<real>, low: real, h: real)
    requires forall i :: 0 <= i < |variances| ==> variances[i] >= low * (1.0 - h)
    ensures StableAfter(Some(false), variances, low, h) == Some(false)
  {
    if variances != [] {
      assert NextStable(Some(false), variances[0], low, h) == Some(false);
      UnstableInsideBand(variances[1..], low, h);
    }
  }

  class Filter {
    const lowThreshold: real
    const highThreshold: real
    const hysteresis: real
    /** Milliseconds: the configured context/stability_timeout (seconds) times 1000. */
    const timeout: int
    /** Last value written to the "stable" property, None while never written. */
    var stableProperty: Option<bool>
    /** Last value written to the "shaky" property, None while never written. */
    var unstableProperty: Option<bool>
    var timer: Timer

    /** `configuredTimeout` is the configuration value, None when it is not set. */
    constructor (lowThreshold: real, highThreshold: real, hysteresis: real, configuredTimeout: Option<int>)
      ensures this.lowThreshold == lowThreshold && this.highThreshold == highThreshold
      ensures this.hysteresis == hysteresis
      ensures timeout == (if configuredTimeout.Some? then configuredTimeout.value else DEFAULT_TIMEOUT) * 1000
      ensures configuredTimeout == None ==> timeout == 60000
      ensures stableProperty == None && unstableProperty == None && timer == Stopped
    {
      this.lowThreshold := lowThreshold;
      this.highThreshold := highThreshold;
      this.hysteresis := hysteresis;
      timeout := (if configuredTimeout.Some? then configuredTimeout.value else DEFAULT_TIMEOUT) * 1000;
      stableProperty := None;
      unstableProperty := None;
      timer := Stopped;
    }

    /**
     * interpret: below low(1-h) the device is stable and the timer stops;
     * otherwise the timer restarts and "stable" clears above low(1+h). The
     * "shaky" property follows its own band. The data pass through unchanged.
     */
    method Interpret(data: (real, real)) returns (out: (real, real))
      modifies this
      ensures out == data
      ensures stableProperty == NextStable(old(stableProperty), data.1, lowThreshold, hysteresis)
      ensures unstableProperty == NextUnstable(old(unstableProperty), data.1, highThreshold, hysteresis)
      ensures timer == (if data.1 < lowThreshold * (1.0 - hysteresis) then Stopped else Running(timeout))
    {
      var variance := data.1;
      if variance < lowThreshold * (1.0 - hysteresis) {
        stableProperty := Some(true);
        timer := Stopped;
      } else {
        timer := Running(timeout);
        if variance > lowThreshold * (1.0 + hysteresis) {
          stableProperty := Some(false);
        }
      }
      if variance < highThreshold * (1.0 - hysteresis) {
        unstableProperty := Some(false);
      } else if variance > highThreshold * (1.0 + hysteresis) {
        unstableProperty := Some(true);
      }
      out := data;
    }

    /** timeoutTriggered: the quiet period elapsed. */
    method TimeoutTriggered()
      modifies this
      ensures stableProperty == Some(true) && timer == Stopped
      ensures unstableProperty == old(unstableProperty)
    {
      stableProperty := Some(true);
      timer := Stopped;
    }
  }
}
