/**
 * Timing extraction for one channel of one event: slice the channel's
 * 1024-sample trace out of the event's flat sample arrays, find where the fit
 * starts, and accept the fitted leading-edge time only inside the scan window.
 * The Landau fit and the rewind / forward scans over the fitted curve are a
 * numerical procedure of the histogramming library; they are the parameter
 * `fit`, and the model keeps only what happens around them.
 */
module Timing {
  import opened Waveform

  /** Samples per channel block in the flat DRS4 arrays. */
  const TraceLength: int := 1024
  /** Fit window (samples) after the start index on a SiPM channel. */
  const SiPMTimeWindow: int := 7
  /** Fit window (samples) after the start index on an MCP channel. */
  const MCPTimeWindow: int := 4
  /** Voltage (mV) the fitted curve must reach on a SiPM channel. */
  const SiPMVoltageForTiming: real := 50.0
  /** Voltage (mV) the fitted curve must reach on an MCP channel. */
  const MCPVoltageForTiming: real := 40.0
  /** Length (ns) of the forward scan after the rewound start time. */
  const ScanDuration: real := 30.0
  /** The "no result" timing. */
  const NoTiming: real := 0.0

  /**
   * What the fit and the two scans leave behind: `evalFit`, the rewound start
   * time, and `timeStep`, where the forward scan stopped.
   */
  datatype FitScan = FitScan(evalFit: real, timeStep: real)

  /**
   * The fit and scans, as a function of the trace times, the trace voltages,
   * the start index, the window length and the voltage to reach.
   */
  type Fitter = (seq<real>, seq<real>, int, int, real) -> FitScan

  /** Channels 0 and 9 are the MCP reference channels. */
  predicate IsMCPChannel(drsChannel: int)
  {
    drsChannel == 0 || drsChannel == 9
  }

  function TimeWindow(drsChannel: int): int
  {
    if IsMCPChannel(drsChannel) then MCPTimeWindow else SiPMTimeWindow
  }

  function VoltageForTiming(drsChannel: int): real
  {
    if IsMCPChannel(drsChannel) then MCPVoltageForTiming else SiPMVoltageForTiming
  }

  function StartThreshold(drsChannel: int): real
  {
    if IsMCPChannel(drsChannel) then MCPVoltageThreshold else SiPMVoltageThreshold
  }

  /** The flat array holds the whole block number `block`. */
  predicate HasBlock(flat: seq<real>, block: int)
  {
    0 <= block && (block + 1) * TraceLength <= |flat|
  }

  /** The times of block `drsTime`. */
  function TraceTimes(time: seq<real>, drsTime: int): (r: seq<real>)
    requires HasBlock(time, drsTime)
    ensures |r| == TraceLength
  {
    seq(TraceLength, i requires 0 <= i < TraceLength => time[drsTime * TraceLength + i])
  }

  /** The rectified (negated) voltages of block `drsChannel`. */
  function TraceVolts(channel: seq<real>, drsChannel: int): (r: seq<real>)
    requires HasBlock(channel, drsChannel)
    ensures |r| == TraceLength
  {
    seq(TraceLength, i requires 0 <= i < TraceLength => -channel[drsChannel * TraceLength + i])
  }

  /**
   * Copies the trace of one channel: exactly 1024 samples, the times taken
   * from the time group's block and the voltages, negated, from the channel's
   * block.
   */
  method SliceTrace(time: seq<real>, channel: seq<real>, drsTime: int, drsChannel: int)
    returns (lTime: seq<real>, lChannel: seq<real>)
    requires HasBlock(time, drsTime) && HasBlock(channel, drsChannel)
    ensures |lTime| == TraceLength && |lChannel| == TraceLength
    ensures forall i :: 0 <= i < TraceLength ==> lTime[i] == time[drsTime * TraceLength + i]
    ensures forall i :: 0 <= i < TraceLength ==> lChannel[i] == -channel[drsChannel * TraceLength + i]
    ensures lTime == TraceTimes(time, drsTime) && lChannel == TraceVolts(channel, drsChannel)
  {
    lTime, lChannel := [], [];
    var i := 0;
    while i < TraceLength
      invariant 0 <= i <= TraceLength
      invariant |lTime| == i && |lChannel| == i
      invariant forall k :: 0 <= k < i ==> lTime[k] == time[drsTime * TraceLength + k]
      invariant forall k :: 0 <= k < i ==> lChannel[k] == -channel[drsChannel * TraceLength + k]
    {
      lTime := lTime + [time[drsTime * TraceLength + i]];
      lChannel := lChannel + [-channel[drsChannel * TraceLength + i]];
      i := i + 1;
    }
  }

  /** The fit runs only when its window lies inside the trace, past its first two samples. */
  predicate FitInRange(startFit: int, window: int)
  {
    startFit > 1 && startFit + window < TraceLength
  }

  /**
   * The validity gate: the scan's stopping time counts only when it lies
   * strictly inside (evalFit, evalFit + 30); otherwise there is no result.
   */
  function ValidateScan(s: FitScan): (t: real)
    ensures t == NoTiming || (s.evalFit < t < s.evalFit + ScanDuration)
    ensures t != NoTiming ==> t == s.timeStep
    ensures s.evalFit < s.timeStep < s.evalFit + ScanDuration ==> t == s.timeStep
  {
    if s.timeStep <= s.evalFit || s.timeStep >= s.evalFit + ScanDuration then NoTiming else s.timeStep
  }

  /** Where the fit starts on this channel's rectified trace. */
  function StartIndex(volts: seq<real>, drsChannel: int): int
  {
    FirstCrossing(volts, StartThreshold(drsChannel))
  }

  /** The timing of one channel, as a function of the event's arrays and the fit. */
  function ChannelTiming(time: seq<real>, channel: seq<real>, drsTime: int, drsChannel: int, fit: Fitter): real
    requires HasBlock(time, drsTime) && HasBlock(channel, drsChannel)
  {
    var times := TraceTimes(time, drsTime);
    var volts := TraceVolts(channel, drsChannel);
    var start := StartIndex(volts, drsChannel);
    var window := TimeWindow(drsChannel);
    if FitInRange(start, window) then
      ValidateScan(fit(times, volts, start, window, VoltageForTiming(drsChannel)))
    else
      ValidateScan(FitScan(0.0, 0.0))
  }

  /**
   * The timing of one channel. Without a fit (start index at most 1, not
   * found, or too close to the end) the result is 0; with one it is 0 or the
   * scan's stopping time strictly inside (evalFit, evalFit + 30).
   */
  method GetTimingForChannel(time: seq<real>, channel: seq<real>, drsTime: int, drsChannel: int, fit: Fitter)
    returns (t: real)
    requires HasBlock(time, drsTime) && HasBlock(channel, drsChannel)
    ensures t == ChannelTiming(time, channel, drsTime, drsChannel, fit)
    ensures var volts := TraceVolts(channel, drsChannel);
            var start := StartIndex(volts, drsChannel);
            var window := TimeWindow(drsChannel);
            if FitInRange(start, window) then
              var s := fit(TraceTimes(time, drsTime), volts, start, window, VoltageForTiming(drsChannel));
              t == NoTiming || (s.evalFit < t < s.evalFit + ScanDuration && t == s.timeStep)
            else
              t == NoTiming
  {
    var timeStep: real := 0.0;
    var evalFit: real := 0.0;
    var lTime, lChannel := SliceTrace(time, channel, drsTime, drsChannel);
    var startFit := GetWaveformInfoTOFPET(lChannel);
    var timeWindow := SiPMTimeWindow;
    if drsChannel == 0 || drsChannel == 9 {
      startFit := GetWaveformInfoMCP(lChannel);
      timeWindow := MCPTimeWindow;
    }
    if startFit > 1 && startFit + timeWindow < TraceLength {
      var fitStop := SiPMVoltageForTiming;
      if drsChannel == 0 || drsChannel == 9 {
        fitStop := MCPVoltageForTiming;
      }
      var scan := fit(lTime, lChannel, startFit, timeWindow, fitStop);
      evalFit, timeStep := scan.evalFit, scan.timeStep;
    }
    if timeStep <= evalFit || timeStep >= evalFit + ScanDuration {
      t := NoTiming;
    } else {
      t := timeStep;
    }
  }

  /** A trace whose rectified samples never exceed the start threshold yields no timing. */
  lemma QuietTraceHasNoTiming(time: seq<real>, channel: seq<real>, drsTime: int, drsChannel: int, fit: Fitter)
    requires HasBlock(time, drsTime) && HasBlock(channel, drsChannel)
    requires AllQuiet(TraceVolts(channel, drsChannel), StartThreshold(drsChannel))
    ensures ChannelTiming(time, channel, drsTime, drsChannel, fit) == NoTiming
  {
    FirstCrossingIsFirst(TraceVolts(channel, drsChannel), StartThreshold(drsChannel));
  }

  /**
   * A trace whose first crossing is one of its first two samples, or lies
   * within the fit window of the end, yields no timing.
   */
  lemma EdgeCrossingHasNoTiming(time: seq<real>, channel: seq<real>, drsTime: int, drsChannel: int, fit: Fitter, k: int)
    requires HasBlock(time, drsTime) && HasBlock(channel, drsChannel)
    requires IsFirstCrossing(TraceVolts(channel, drsChannel), StartThreshold(drsChannel), k)
    requires k <= 1 || k + TimeWindow(drsChannel) >= TraceLength
    ensures ChannelTiming(time, channel, drsTime, drsChannel, fit) == NoTiming
  {
    FirstCrossingUnique(TraceVolts(channel, drsChannel), StartThreshold(drsChannel), k);
  }
}
