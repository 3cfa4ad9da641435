/**
 * The threshold finder of the bar analysis: the index of the first sample of a
 * rectified waveform whose magnitude exceeds a fixed voltage threshold, or -1.
 * SiPM channels use a 30 mV threshold, the MCP reference channels 20 mV.
 */
module Waveform {

  /** Threshold (mV) for the start of the fit on an ordinary SiPM channel. */
  const SiPMVoltageThreshold: real := 30.0
  /** Threshold (mV) for the start of the fit on an MCP reference channel. */
  const MCPVoltageThreshold: real := 20.0
  /** The "not found" value of the finder. */
  const NotFound: int := -1

  function Abs(x: real): real
  {
    if x < 0.0 then -x else x
  }

  /** True when no sample of v has a magnitude above threshold. */
  ghost predicate AllQuiet(v: seq<real>, threshold: real)
  {
    forall i :: 0 <= i < |v| ==> Abs(v[i]) <= threshold
  }

  /** True when k is the smallest index whose sample exceeds threshold. */
  ghost predicate IsFirstCrossing(v: seq<real>, threshold: real, k: int)
  {
    && 0 <= k < |v|
    && Abs(v[k]) > threshold
    && forall i :: 0 <= i < k ==> Abs(v[i]) <= threshold
  }

  /**
   * What the finder's loop has computed after seeing the samples of v: the
   * stamp is set by the first crossing and kept from then on.
   */
  function FirstCrossing(v: seq<real>, threshold: real): int
  {
    if |v| == 0 then NotFound
    else
      var earlier := FirstCrossing(v[..|v| - 1], threshold);
      if earlier == NotFound && Abs(v[|v| - 1]) > threshold then |v| - 1 else earlier
  }

  /** The finder returns exactly the first crossing, and -1 exactly when there is none. */
  lemma {:induction false} FirstCrossingIsFirst(v: seq<real>, threshold: real)
    ensures NotFound <= FirstCrossing(v, threshold) < |v|
    ensures FirstCrossing(v, threshold) == NotFound <==> AllQuiet(v, threshold)
    ensures FirstCrossing(v, threshold) != NotFound ==> IsFirstCrossing(v, threshold, FirstCrossing(v, threshold))
  {
    if |v| > 0 {
      var front := v[..|v| - 1];
      FirstCrossingIsFirst(front, threshold);
      assert forall i :: 0 <= i < |front| ==> front[i] == v[i];
    }
  }

  /** The first crossing is unique, so the characterisation above determines the finder. */
  lemma FirstCrossingUnique(v: seq<real>, threshold: real, k: int)
    requires IsFirstCrossing(v, threshold, k)
    ensures FirstCrossing(v, threshold) == k
  {
    FirstCrossingIsFirst(v, threshold);
  }

  /**
   * Raising the threshold never moves a found crossing earlier; a crossing of
   * the higher threshold is also a crossing of the lower one.
   */
  lemma FirstCrossingMonotone(v: seq<real>, low: real, high: real)
    requires low <= high
    requires FirstCrossing(v, high) != NotFound
    ensures FirstCrossing(v, low) != NotFound
    ensures FirstCrossing(v, low) <= FirstCrossing(v, high)
  {
    FirstCrossingIsFirst(v, low);
    FirstCrossingIsFirst(v, high);
  }

  /**
   * The finder's loop: it visits every sample and records the index of the
   * first one above threshold, later crossings leave the stamp alone.
   */
  method FindFirstCrossing(channel: seq<real>, threshold: real) returns (stamp: int)
    ensures stamp == FirstCrossing(channel, threshold)
    ensures stamp == NotFound <==> AllQuiet(channel, threshold)
    ensures stamp != NotFound ==> IsFirstCrossing(channel, threshold, stamp)
  {
    stamp := NotFound;
    for i := 0 to |channel|
      invariant stamp == FirstCrossing(channel[..i], threshold)
    {
      assert channel[..i + 1][..i] == channel[..i];
      if Abs(channel[i]) > threshold && stamp == NotFound {
        stamp := i;
      }
    }
    assert channel[..|channel|] == channel;
    FirstCrossingIsFirst(channel, threshold);
  }

  /** Start of the fit on a SiPM trace: the first sample above 30 mV. */
  method GetWaveformInfoTOFPET(channel: seq<real>) returns (stamp: int)
    ensures stamp == NotFound <==> forall i :: 0 <= i < |channel| ==> Abs(channel[i]) <= 30.0
    ensures stamp != NotFound ==> 0 <= stamp < |channel| && Abs(channel[stamp]) > 30.0
    ensures stamp != NotFound ==> forall i :: 0 <= i < stamp ==> Abs(channel[i]) <= 30.0
    ensures stamp == FirstCrossing(channel, SiPMVoltageThreshold)
  {
    stamp := FindFirstCrossing(channel, SiPMVoltageThreshold);
  }

  /** Start of the fit on an MCP trace: the first sample above 20 mV. */
  method GetWaveformInfoMCP(channel: seq<real>) returns (stamp: int)
    ensures stamp == NotFound <==> forall i :: 0 <= i < |channel| ==> Abs(channel[i]) <= 20.0
    ensures stamp != NotFound ==> 0 <= stamp < |channel| && Abs(channel[stamp]) > 20.0
    ensures stamp != NotFound ==> forall i :: 0 <= i < stamp ==> Abs(channel[i]) <= 20.0
    ensures stamp == FirstCrossing(channel, MCPVoltageThreshold)
  {
    stamp := FindFirstCrossing(channel, MCPVoltageThreshold);
  }
}
