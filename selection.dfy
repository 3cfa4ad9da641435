/**
 * What one event contributes to the histograms of one bar: the acceptance
 * cut, the leakage fills, the fiducial window, the four-way timing tally and
 * the derived time differences. Histograms are the lists of values filled
 * into them, in filling order; a Step also says whether the analysis would
 * have stopped with an index error (empty boundary lists after an unknown
 * run type).
 */
module Selection {
  import opened Wrappers
  import opened Waveform
  import opened Timing
  import opened Bars
  import opened Veto
  import opened RunConfig

  /** One readout of the testbeam tree. */
  datatype Event = Event(
    amp: seq<real>,      // peak amplitude (mV) per channel
    time: seq<real>,     // flat sample times, one 1024-block per time group
    channel: seq<real>,  // flat sample voltages, one 1024-block per channel
    xDut: seq<real>,     // track x per plane
    yDut: seq<real>,     // track y per plane
    xSlope: real,
    ySlope: real,
    tPeak: seq<real>)    // precomputed peak time per channel

  /** The tracker plane at the bars. */
  const TrackPlane: int := 2
  /** Bound on |xSlope| and |ySlope| for a straight track. */
  const SlopeCut: real := 0.0004
  /** Open window on the MCP amplitude (mV) for the MCP-relative difference. */
  const McpGateLow: real := 80.0
  const McpGateHigh: real := 160.0
  /** ns to ps. */
  const PsPerNs: real := 1000.0

  /** The event holds every entry the analysis reads. */
  predicate WellFormed(e: Event)
  {
    && |e.amp| >= ChannelCount
    && |e.time| >= 2 * TraceLength
    && |e.channel| >= ChannelCount * TraceLength
    && |e.xDut| > TrackPlane
    && |e.yDut| > TrackPlane
    && |e.tPeak| >= 10
  }

  datatype Point = Point(x: real, y: real)

  /** The per-bar histograms, each as the list of what was filled into it. */
  datatype BarPlots = BarPlots(
    hits: seq<Point>,          // track position of accepted events
    mcpAmp: seq<real>,         // MCP amplitude of accepted events
    rightVsLeft: seq<Point>,   // (right, left) amplitudes
    ratioVsX: seq<Point>,      // (x, right / left)
    fiducialHits: seq<Point>,  // track position inside the fiducial window
    rightAmpVsX: seq<Point>,
    leftAmpVsX: seq<Point>,
    rightTimeVsX: seq<Point>,
    leftTimeVsX: seq<Point>)

  const EmptyBarPlots: BarPlots := BarPlots([], [], [], [], [], [], [], [], [])

  /** The four bins of the timing-logic histogram. */
  datatype Tally = Tally(both: nat, rightOnly: nat, leftOnly: nat, neither: nat)
  {
    function Total(): nat
    {
      both + rightOnly + leftOnly + neither
    }
  }

  /** The histograms shared by all bars. */
  datatype TimingPlots = TimingPlots(
    times: seq<real>,
    timeRes: seq<real>,
    logic: Tally,
    mcpRefTimeRes: seq<real>,
    xVsTimeRes: seq<Point>,
    xVsMcpRefTimeRes: seq<Point>)

  const EmptyTimingPlots: TimingPlots := TimingPlots([], [], Tally(0, 0, 0, 0), [], [], [])

  datatype Plots = Plots(bars: seq<BarPlots>, timing: TimingPlots)

  const EmptyPlots: Plots := Plots([EmptyBarPlots, EmptyBarPlots, EmptyBarPlots, EmptyBarPlots, EmptyBarPlots], EmptyTimingPlots)

  /** The histograms after a step, and whether the analysis stopped there. */
  datatype Step = Step(plots: Plots, crashed: bool)

  /** The bar selection: both SiPMs above threshold, not vetoed, a straight track. */
  predicate Accepted(e: Event, bar: int, s: RunSettings, vetoOpt: string)
    requires WellFormed(e) && IsBar(bar)
  {
    var ch := ChannelsForBar(bar);
    && e.amp[ch.right] > s.signalThreshold
    && e.amp[ch.left] > s.signalThreshold
    && !ReturnVetoDecision(e.amp, bar, vetoOpt, s.vetoThreshold)
    && Abs(e.xSlope) < SlopeCut
    && Abs(e.ySlope) < SlopeCut
  }

  /**
   * The fiducial window test, evaluated left to right as the analysis does;
   * None where it would index past the end of a boundary list.
   */
  function FiducialCut(x: real, y: real, bar: int, s: RunSettings): Option<bool>
    requires IsBar(bar)
  {
    if bar - 1 >= |s.yBoundaries| then None
    else if Abs(y - s.yBoundaries[bar - 1]) > s.yIntegralOffset then Some(false)
    else if |s.xBoundaries| == 0 then None
    else Some(s.xBoundaries[0] <= x && x <= s.xBoundaries[|s.xBoundaries| - 1])
  }

  datatype TimingCase = Both | RightOnly | LeftOnly | Neither

  /** Which of the two SiPM timings are results (non-zero). */
  function Classify(tR: real, tL: real): TimingCase
  {
    if tR != NoTiming && tL != NoTiming then Both
    else if tR != NoTiming then RightOnly
    else if tL != NoTiming then LeftOnly
    else Neither
  }

  function Count(t: Tally, c: TimingCase): Tally
  {
    match c
    case Both => t.(both := t.both + 1)
    case RightOnly => t.(rightOnly := t.rightOnly + 1)
    case LeftOnly => t.(leftOnly := t.leftOnly + 1)
    case Neither => t.(neither := t.neither + 1)
  }

  /** Left minus right, in ps. */
  function DeltaT(tR: real, tL: real): real
  {
    PsPerNs * (tL - tR)
  }

  /** Mean of the two SiPM times minus the MCP time, in ps. */
  function McpDeltaT(tR: real, tL: real, tMcp: real): real
  {
    PsPerNs * ((tR + tL) / 2.0 - tMcp)
  }

  predicate McpGate(tMcp: real, ampMcp: real)
  {
    tMcp != 0.0 && McpGateLow < ampMcp < McpGateHigh
  }

  /** The leakage fills of an accepted event: position, amplitudes and their ratio. */
  function LeakageFills(b: BarPlots, x: real, y: real, aR: real, aL: real, aMcp: real): BarPlots
    requires aL != 0.0
  {
    b.(hits := b.hits + [Point(x, y)],
       mcpAmp := b.mcpAmp + [aMcp],
       rightVsLeft := b.rightVsLeft + [Point(aR, aL)],
       ratioVsX := b.ratioVsX + [Point(x, aR / aL)],
       rightAmpVsX := b.rightAmpVsX + [Point(x, aR)],
       leftAmpVsX := b.leftAmpVsX + [Point(x, aL)])
  }

  function FiducialFill(b: BarPlots, x: real, y: real, inWindow: bool): BarPlots
  {
    if inWindow then b.(fiducialHits := b.fiducialHits + [Point(x, y)]) else b
  }

  /** The per-bar timing profiles, filled when both timings are results. */
  function BarTimingFills(b: BarPlots, x: real, tR: real, tL: real): BarPlots
  {
    if Classify(tR, tL) == Both
    then b.(rightTimeVsX := b.rightTimeVsX + [Point(x, tR)], leftTimeVsX := b.leftTimeVsX + [Point(x, tL)])
    else b
  }

  /** The shared timing fills of one accepted (event, bar). */
  function TimingFills(t: TimingPlots, x: real, tR: real, tL: real, tMcp: real, ampMcp: real): TimingPlots
  {
    var c := Classify(tR, tL);
    var counted := t.(logic := Count(t.logic, c));
    if c != Both then counted
    else
      var dT := DeltaT(tR, tL);
      var paired := counted.(xVsTimeRes := counted.xVsTimeRes + [Point(x, dT)],
                             timeRes := counted.timeRes + [dT],
                             times := counted.times + [tL, tR]);
      if McpGate(tMcp, ampMcp) then
        var dM := McpDeltaT(tR, tL, tMcp);
        paired.(xVsMcpRefTimeRes := paired.xVsMcpRefTimeRes + [Point(x, dM)],
                mcpRefTimeRes := paired.mcpRefTimeRes + [dM],
                times := paired.times + [tMcp])
      else paired
  }

  /**
   * What one event does to the histograms of one bar, given the two SiPM
   * timings of that bar.
   */
  function BarStep(p: Plots, e: Event, bar: int, s: RunSettings, vetoOpt: string, tR: real, tL: real): (st: Step)
    requires WellFormed(e) && IsBar(bar) && |p.bars| == 5 && s.signalThreshold >= 0.0
    ensures |st.plots.bars| == 5
  {
    if !Accepted(e, bar, s, vetoOpt) then Step(p, false)
    else
      var ch := ChannelsForBar(bar);
      var x, y := e.xDut[TrackPlane], e.yDut[TrackPlane];
      var aR, aL := e.amp[ch.right], e.amp[ch.left];
      var leak := LeakageFills(p.bars[bar - 1], x, y, aR, aL, e.amp[ch.mcp]);
      match FiducialCut(x, y, bar, s)
      case None => Step(p.(bars := p.bars[bar - 1 := leak]), true)
      case Some(inWindow) =>
        var timed := BarTimingFills(FiducialFill(leak, x, y, inWindow), x, tR, tL);
        Step(Plots(p.bars[bar - 1 := timed],
                   TimingFills(p.timing, x, tR, tL, e.tPeak[ch.mcp], e.amp[ch.mcp])),
             false)
  }

  /** The traces of a bar's channels lie inside a well-formed event. */
  lemma BarTracesPresent(e: Event, bar: int)
    requires WellFormed(e) && IsBar(bar)
    ensures HasBlock(e.time, ChannelsForBar(bar).time)
    ensures HasBlock(e.channel, ChannelsForBar(bar).right)
    ensures HasBlock(e.channel, ChannelsForBar(bar).left)
  {
  }

  /** The right and left SiPM timings of a bar in an event. */
  function RightTiming(e: Event, bar: int, fit: Fitter): real
    requires WellFormed(e) && IsBar(bar)
  {
    BarTracesPresent(e, bar);
    var ch := ChannelsForBar(bar);
    ChannelTiming(e.time, e.channel, ch.time, ch.right, fit)
  }

  function LeftTiming(e: Event, bar: int, fit: Fitter): real
    requires WellFormed(e) && IsBar(bar)
  {
    BarTracesPresent(e, bar);
    var ch := ChannelsForBar(bar);
    ChannelTiming(e.time, e.channel, ch.time, ch.left, fit)
  }

  /** Every event of a run has the arrays the analysis indexes. */
  predicate AllWellFormed(events: seq<Event>)
  {
    forall i :: 0 <= i < |events| ==> WellFormed(events[i])
  }

  /** The first `n` events of a run through all five bars, stopping at an index error. */
  function RunEvents(p: Plots, events: seq<Event>, n: nat, s: RunSettings, vetoOpt: string, fit: Fitter): (st: Step)
    requires AllWellFormed(events) && n <= |events|
    requires |p.bars| == 5 && s.signalThreshold >= 0.0
    ensures |st.plots.bars| == 5
    decreases n, 6
  {
    if n == 0 then Step(p, false) else RunBars(p, events, n, s, vetoOpt, fit, 5)
  }

  /**
   * The first `n - 1` events of a run, then event `n - 1` through bars
   * 1 .. `barsDone`, stopping at an index error.
   */
  function RunBars(p: Plots, events: seq<Event>, n: nat, s: RunSettings, vetoOpt: string, fit: Fitter, barsDone: int): (st: Step)
    requires AllWellFormed(events) && 1 <= n <= |events| && 0 <= barsDone <= 5
    requires |p.bars| == 5 && s.signalThreshold >= 0.0
    ensures |st.plots.bars| == 5
    decreases n, barsDone
  {
    if barsDone == 0 then RunEvents(p, events, n - 1, s, vetoOpt, fit)
    else
      var st := RunBars(p, events, n, s, vetoOpt, fit, barsDone - 1);
      var e := events[n - 1];
      if st.crashed then st
      else BarStep(st.plots, e, barsDone, s, vetoOpt, RightTiming(e, barsDone, fit), LeftTiming(e, barsDone, fit))
  }

  /**
   * Event `n` continues the run of the events before it exactly as a run of
   * that one event from where the run stood.
   */
  lemma {:induction false} RunBarsContinue(p: Plots, events: seq<Event>, n: nat, s: RunSettings, vetoOpt: string, fit: Fitter, barsDone: int)
    requires AllWellFormed(events) && n < |events| && 0 <= barsDone <= 5
    requires |p.bars| == 5 && s.signalThreshold >= 0.0
    requires !RunEvents(p, events, n, s, vetoOpt, fit).crashed
    ensures RunBars(p, events, n + 1, s, vetoOpt, fit, barsDone) ==
            RunBars(RunEvents(p, events, n, s, vetoOpt, fit).plots, [events[n]], 1, s, vetoOpt, fit, barsDone)
    decreases barsDone
  {
    if barsDone > 0 {
      RunBarsContinue(p, events, n, s, vetoOpt, fit, barsDone - 1);
      RunBarsAgree(p, events, n + 1, RunEvents(p, events, n, s, vetoOpt, fit).plots, [events[n]], 1, s, vetoOpt, fit, barsDone);
    }
  }

  /** Two runs that agree before bar `barsDone` of the same event agree after it. */
  lemma RunBarsAgree(p1: Plots, events1: seq<Event>, n1: nat, p2: Plots, events2: seq<Event>, n2: nat,
                     s: RunSettings, vetoOpt: string, fit: Fitter, barsDone: int)
    requires AllWellFormed(events1) && 1 <= n1 <= |events1| && AllWellFormed(events2) && 1 <= n2 <= |events2|
    requires 1 <= barsDone <= 5 && |p1.bars| == 5 && |p2.bars| == 5 && s.signalThreshold >= 0.0
    requires events1[n1 - 1] == events2[n2 - 1]
    requires RunBars(p1, events1, n1, s, vetoOpt, fit, barsDone - 1) == RunBars(p2, events2, n2, s, vetoOpt, fit, barsDone - 1)
    ensures RunBars(p1, events1, n1, s, vetoOpt, fit, barsDone) == RunBars(p2, events2, n2, s, vetoOpt, fit, barsDone)
  {
  }

  /** Running one more event continues the run from where it stood. */
  lemma RunEventsContinue(p: Plots, events: seq<Event>, n: nat, s: RunSettings, vetoOpt: string, fit: Fitter)
    requires AllWellFormed(events) && n < |events|
    requires |p.bars| == 5 && s.signalThreshold >= 0.0
    ensures var before := RunEvents(p, events, n, s, vetoOpt, fit);
            RunEvents(p, events, n + 1, s, vetoOpt, fit) ==
            if before.crashed then before else RunEvents(before.plots, [events[n]], 1, s, vetoOpt, fit)
  {
    var before := RunEvents(p, events, n, s, vetoOpt, fit);
    if before.crashed {
      CrashStays(p, events, n + 1, s, vetoOpt, fit, 5);
    } else {
      RunBarsContinue(p, events, n, s, vetoOpt, fit, 5);
    }
  }

  /** Once the run of the first `n - 1` events stopped, the bars of event `n - 1` change nothing. */
  lemma {:induction false} CrashStays(p: Plots, events: seq<Event>, n: nat, s: RunSettings, vetoOpt: string, fit: Fitter, barsDone: int)
    requires AllWellFormed(events) && 1 <= n <= |events| && 0 <= barsDone <= 5
    requires |p.bars| == 5 && s.signalThreshold >= 0.0
    requires RunEvents(p, events, n - 1, s, vetoOpt, fit).crashed
    ensures RunBars(p, events, n, s, vetoOpt, fit, barsDone) == RunEvents(p, events, n - 1, s, vetoOpt, fit)
    decreases barsDone
  {
    if barsDone > 0 {
      CrashStays(p, events, n, s, vetoOpt, fit, barsDone - 1);
    }
  }

  // ----- Properties of one (event, bar) step -----

  /** An accepted event has both SiPM amplitudes positive, so the ratio right / left is defined. */
  lemma AcceptedAmplitudesPositive(e: Event, bar: int, s: RunSettings, vetoOpt: string)
    requires WellFormed(e) && IsBar(bar) && s.signalThreshold >= 0.0
    requires Accepted(e, bar, s, vetoOpt)
    ensures e.amp[ChannelsForBar(bar).left] > 0.0 && e.amp[ChannelsForBar(bar).right] > 0.0
  {
  }

  /**
   * The leakage histograms are filled exactly for events that pass the cut,
   * with the track position, the amplitudes and their ratio; everything else
   * leaves the histograms alone.
   */
  lemma LeakageFilledIffAccepted(p: Plots, e: Event, bar: int, s: RunSettings, vetoOpt: string, tR: real, tL: real)
    requires WellFormed(e) && IsBar(bar) && |p.bars| == 5 && s.signalThreshold >= 0.0
    ensures var st := BarStep(p, e, bar, s, vetoOpt, tR, tL);
            var ch := ChannelsForBar(bar);
            var aR, aL := e.amp[ch.right], e.amp[ch.left];
            var x, y := e.xDut[2], e.yDut[2];
            var cut := aR > s.signalThreshold && aL > s.signalThreshold
                       && !ReturnVetoDecision(e.amp, bar, vetoOpt, s.vetoThreshold)
                       && Abs(e.xSlope) < 0.0004 && Abs(e.ySlope) < 0.0004;
            var before, after := p.bars[bar - 1], st.plots.bars[bar - 1];
            && (cut ==> && after.hits == before.hits + [Point(x, y)]
                        && after.mcpAmp == before.mcpAmp + [e.amp[ch.mcp]]
                        && after.rightVsLeft == before.rightVsLeft + [Point(aR, aL)]
                        && aL > 0.0
                        && after.ratioVsX == before.ratioVsX + [Point(x, aR / aL)]
                        && after.rightAmpVsX == before.rightAmpVsX + [Point(x, aR)]
                        && after.leftAmpVsX == before.leftAmpVsX + [Point(x, aL)])
            && (!cut ==> st == Step(p, false))
  {
  }

  /** A step changes the histograms of its own bar and the shared ones, never another bar's. */
  lemma OtherBarsUntouched(p: Plots, e: Event, bar: int, s: RunSettings, vetoOpt: string, tR: real, tL: real, j: int)
    requires WellFormed(e) && IsBar(bar) && |p.bars| == 5 && s.signalThreshold >= 0.0
    requires 0 <= j < 5 && j != bar - 1
    ensures BarStep(p, e, bar, s, vetoOpt, tR, tL).plots.bars[j] == p.bars[j]
  {
  }

  /**
   * The analysis stops exactly when an accepted event needs a boundary the
   * settings do not have; complete settings never stop it.
   */
  lemma CrashIffMissingBoundary(p: Plots, e: Event, bar: int, s: RunSettings, vetoOpt: string, tR: real, tL: real)
    requires WellFormed(e) && IsBar(bar) && |p.bars| == 5 && s.signalThreshold >= 0.0
    ensures BarStep(p, e, bar, s, vetoOpt, tR, tL).crashed <==>
            && Accepted(e, bar, s, vetoOpt)
            && (|| |s.yBoundaries| < bar
                || (Abs(e.yDut[2] - s.yBoundaries[bar - 1]) <= s.yIntegralOffset && |s.xBoundaries| == 0))
  {
  }

  /** With complete settings a step never stops the analysis. */
  lemma CompleteBarStepNeverCrashes(p: Plots, e: Event, bar: int, s: RunSettings, vetoOpt: string, tR: real, tL: real)
    requires WellFormed(e) && IsBar(bar) && |p.bars| == 5 && Complete(s)
    ensures !BarStep(p, e, bar, s, vetoOpt, tR, tL).crashed
  {
    CrashIffMissingBoundary(p, e, bar, s, vetoOpt, tR, tL);
  }

  /**
   * The fiducial histogram gains the track position exactly when the event is
   * accepted, its y lies within yIntegralOffset of the bar's centre and its x
   * within the outer x boundaries.
   */
  lemma FiducialFilledIffInWindow(p: Plots, e: Event, bar: int, s: RunSettings, vetoOpt: string, tR: real, tL: real)
    requires WellFormed(e) && IsBar(bar) && |p.bars| == 5 && s.signalThreshold >= 0.0
    requires Complete(s)
    ensures var after := BarStep(p, e, bar, s, vetoOpt, tR, tL).plots.bars[bar - 1].fiducialHits;
            var before := p.bars[bar - 1].fiducialHits;
            var x, y := e.xDut[2], e.yDut[2];
            var inWindow := && Abs(y - s.yBoundaries[bar - 1]) <= s.yIntegralOffset
                            && s.xBoundaries[0] <= x <= s.xBoundaries[4];
            after == if Accepted(e, bar, s, vetoOpt) && inWindow then before + [Point(x, y)] else before
  {
  }

  /**
   * Each accepted (event, bar) adds one to exactly one timing-logic bin,
   * chosen by which timings are non-zero; rejected ones add nothing.
   */
  lemma TallyCountsOnce(p: Plots, e: Event, bar: int, s: RunSettings, vetoOpt: string, tR: real, tL: real)
    requires WellFormed(e) && IsBar(bar) && |p.bars| == 5 && s.signalThreshold >= 0.0
    ensures var st := BarStep(p, e, bar, s, vetoOpt, tR, tL);
            var before, after := p.timing.logic, st.plots.timing.logic;
            var counted := Accepted(e, bar, s, vetoOpt) && !st.crashed;
            && after.Total() == before.Total() + (if counted then 1 else 0)
            && after.both == before.both + (if counted && tR != 0.0 && tL != 0.0 then 1 else 0)
            && after.rightOnly == before.rightOnly + (if counted && tR != 0.0 && tL == 0.0 then 1 else 0)
            && after.leftOnly == before.leftOnly + (if counted && tR == 0.0 && tL != 0.0 then 1 else 0)
            && after.neither == before.neither + (if counted && tR == 0.0 && tL == 0.0 then 1 else 0)
  {
  }

  /**
   * The left-minus-right difference, 1000 * (tL - tR), is recorded exactly
   * when the event is counted and both timings are results.
   */
  lemma TimeResOnlyForBoth(p: Plots, e: Event, bar: int, s: RunSettings, vetoOpt: string, tR: real, tL: real)
    requires WellFormed(e) && IsBar(bar) && |p.bars| == 5 && s.signalThreshold >= 0.0
    ensures var st := BarStep(p, e, bar, s, vetoOpt, tR, tL);
            var before, after := p.timing, st.plots.timing;
            var both := Accepted(e, bar, s, vetoOpt) && !st.crashed && tR != 0.0 && tL != 0.0;
            && after.timeRes == (if both then before.timeRes + [1000.0 * (tL - tR)] else before.timeRes)
            && after.xVsTimeRes == (if both then before.xVsTimeRes + [Point(e.xDut[2], 1000.0 * (tL - tR))] else before.xVsTimeRes)
  {
  }

  /**
   * The MCP-relative difference, 1000 * ((tR + tL) / 2 - tMCP), is recorded
   * exactly when both timings are results, the MCP peak time is non-zero and
   * the MCP amplitude lies strictly between 80 and 160 mV.
   */
  lemma McpRefOnlyWhenGated(p: Plots, e: Event, bar: int, s: RunSettings, vetoOpt: string, tR: real, tL: real)
    requires WellFormed(e) && IsBar(bar) && |p.bars| == 5 && s.signalThreshold >= 0.0
    ensures var st := BarStep(p, e, bar, s, vetoOpt, tR, tL);
            var mcp := ChannelsForBar(bar).mcp;
            var tMcp, aMcp := e.tPeak[mcp], e.amp[mcp];
            var before, after := p.timing, st.plots.timing;
            var gated := && Accepted(e, bar, s, vetoOpt) && !st.crashed && tR != 0.0 && tL != 0.0
                         && tMcp != 0.0 && 80.0 < aMcp < 160.0;
            var dM := 1000.0 * ((tR + tL) / 2.0 - tMcp);
            && after.mcpRefTimeRes == (if gated then before.mcpRefTimeRes + [dM] else before.mcpRefTimeRes)
            && after.xVsMcpRefTimeRes == (if gated then before.xVsMcpRefTimeRes + [Point(e.xDut[2], dM)] else before.xVsMcpRefTimeRes)
  {
  }

  /**
   * The per-bar time-versus-x profiles gain the right and left timings at the
   * track's x exactly when the event is counted and both timings are results.
   */
  lemma TimeProfilesOnlyForBoth(p: Plots, e: Event, bar: int, s: RunSettings, vetoOpt: string, tR: real, tL: real)
    requires WellFormed(e) && IsBar(bar) && |p.bars| == 5 && s.signalThreshold >= 0.0
    ensures var st := BarStep(p, e, bar, s, vetoOpt, tR, tL);
            var before, after := p.bars[bar - 1], st.plots.bars[bar - 1];
            var both := Accepted(e, bar, s, vetoOpt) && !st.crashed && tR != 0.0 && tL != 0.0;
            var x := e.xDut[2];
            && after.rightTimeVsX == (if both then before.rightTimeVsX + [Point(x, tR)] else before.rightTimeVsX)
            && after.leftTimeVsX == (if both then before.leftTimeVsX + [Point(x, tL)] else before.leftTimeVsX)
  {
  }

  /**
   * The histogram of all times gains tL then tR when the event is counted and
   * both timings are results, followed by the MCP time when the MCP gate also
   * holds; otherwise it is unchanged.
   */
  lemma AllTimesRecorded(p: Plots, e: Event, bar: int, s: RunSettings, vetoOpt: string, tR: real, tL: real)
    requires WellFormed(e) && IsBar(bar) && |p.bars| == 5 && s.signalThreshold >= 0.0
    ensures var st := BarStep(p, e, bar, s, vetoOpt, tR, tL);
            var mcp := ChannelsForBar(bar).mcp;
            var tMcp, aMcp := e.tPeak[mcp], e.amp[mcp];
            var before, after := p.timing.times, st.plots.timing.times;
            var both := Accepted(e, bar, s, vetoOpt) && !st.crashed && tR != 0.0 && tL != 0.0;
            var gated := tMcp != 0.0 && 80.0 < aMcp < 160.0;
            after == if !both then before
                     else if gated then before + [tL, tR, tMcp]
                     else before + [tL, tR]
  {
  }

  // ----- Properties of whole runs -----

  /** Number of bars among 1 .. `barsDone` that accept the event. */
  function AcceptedBars(e: Event, s: RunSettings, vetoOpt: string, barsDone: int): nat
    requires WellFormed(e) && 0 <= barsDone <= 5
  {
    if barsDone == 0 then 0
    else AcceptedBars(e, s, vetoOpt, barsDone - 1) + (if Accepted(e, barsDone, s, vetoOpt) then 1 else 0)
  }

  /** Number of accepted (event, bar) pairs among the first `n` events. */
  function AcceptedPairs(events: seq<Event>, n: nat, s: RunSettings, vetoOpt: string): nat
    requires AllWellFormed(events) && n <= |events|
  {
    if n == 0 then 0
    else AcceptedPairs(events, n - 1, s, vetoOpt) + AcceptedBars(events[n - 1], s, vetoOpt, 5)
  }

  /** The tally of one step that does not stop grows by one exactly when the bar accepts the event. */
  lemma BarStepTally(p: Plots, e: Event, bar: int, s: RunSettings, vetoOpt: string, tR: real, tL: real)
    requires WellFormed(e) && IsBar(bar) && |p.bars| == 5 && s.signalThreshold >= 0.0
    ensures var st := BarStep(p, e, bar, s, vetoOpt, tR, tL);
            !st.crashed ==> st.plots.timing.logic.Total() == p.timing.logic.Total() + (if Accepted(e, bar, s, vetoOpt) then 1 else 0)
  {
    TallyCountsOnce(p, e, bar, s, vetoOpt, tR, tL);
  }

  /**
   * Over a run that is not stopped, the timing-logic histogram holds one
   * entry per accepted (event, bar) pair.
   */
  lemma {:induction false} RunEventsTally(p: Plots, events: seq<Event>, n: nat, s: RunSettings, vetoOpt: string, fit: Fitter)
    requires AllWellFormed(events) && n <= |events|
    requires |p.bars| == 5 && s.signalThreshold >= 0.0
    ensures var st := RunEvents(p, events, n, s, vetoOpt, fit);
            !st.crashed ==> st.plots.timing.logic.Total() == p.timing.logic.Total() + AcceptedPairs(events, n, s, vetoOpt)
    decreases n, 6
  {
    if n > 0 {
      RunBarsTally(p, events, n, s, vetoOpt, fit, 5);
      assert TallySoFar(p, events, n, s, vetoOpt, fit, 5);
    }
  }

  /** The tally part-way through event `n - 1`: one entry per accepted pair so far. */
  predicate TallySoFar(p: Plots, events: seq<Event>, n: nat, s: RunSettings, vetoOpt: string, fit: Fitter, barsDone: int)
    requires AllWellFormed(events) && 1 <= n <= |events| && 0 <= barsDone <= 5
    requires |p.bars| == 5 && s.signalThreshold >= 0.0
  {
    var st := RunBars(p, events, n, s, vetoOpt, fit, barsDone);
    !st.crashed ==> st.plots.timing.logic.Total() ==
                    p.timing.logic.Total() + AcceptedPairs(events, n - 1, s, vetoOpt) + AcceptedBars(events[n - 1], s, vetoOpt, barsDone)
  }

  /** The same count part-way through an event. */
  lemma {:induction false} RunBarsTally(p: Plots, events: seq<Event>, n: nat, s: RunSettings, vetoOpt: string, fit: Fitter, barsDone: int)
    requires AllWellFormed(events) && 1 <= n <= |events| && 0 <= barsDone <= 5
    requires |p.bars| == 5 && s.signalThreshold >= 0.0
    ensures TallySoFar(p, events, n, s, vetoOpt, fit, barsDone)
    decreases n, barsDone
  {
    if barsDone == 0 {
      RunEventsTally(p, events, n - 1, s, vetoOpt, fit);
    } else {
      RunBarsTally(p, events, n, s, vetoOpt, fit, barsDone - 1);
      TallyStep(p, events, n, s, vetoOpt, fit, barsDone);
    }
  }

  /** One more bar keeps the tally. */
  lemma TallyStep(p: Plots, events: seq<Event>, n: nat, s: RunSettings, vetoOpt: string, fit: Fitter, barsDone: int)
    requires AllWellFormed(events) && 1 <= n <= |events| && 1 <= barsDone <= 5
    requires |p.bars| == 5 && s.signalThreshold >= 0.0
    requires TallySoFar(p, events, n, s, vetoOpt, fit, barsDone - 1)
    ensures TallySoFar(p, events, n, s, vetoOpt, fit, barsDone)
  {
    var st := RunBars(p, events, n, s, vetoOpt, fit, barsDone - 1);
    if !st.crashed {
      var e := events[n - 1];
      BarStepTally(st.plots, e, barsDone, s, vetoOpt, RightTiming(e, barsDone, fit), LeftTiming(e, barsDone, fit));
    }
  }

  /** With the settings of a known run type the analysis never stops early. */
  lemma {:induction false} CompleteRunNeverCrashes(p: Plots, events: seq<Event>, n: nat, s: RunSettings, vetoOpt: string, fit: Fitter)
    requires AllWellFormed(events) && n <= |events|
    requires |p.bars| == 5 && Complete(s)
    ensures !RunEvents(p, events, n, s, vetoOpt, fit).crashed
    decreases n, 6
  {
    if n > 0 {
      CompleteRunBarsNeverCrash(p, events, n, s, vetoOpt, fit, 5);
    }
  }

  lemma {:induction false} CompleteRunBarsNeverCrash(p: Plots, events: seq<Event>, n: nat, s: RunSettings, vetoOpt: string, fit: Fitter, barsDone: int)
    requires AllWellFormed(events) && 1 <= n <= |events| && 0 <= barsDone <= 5
    requires |p.bars| == 5 && Complete(s)
    ensures !RunBars(p, events, n, s, vetoOpt, fit, barsDone).crashed
    decreases n, barsDone
  {
    if barsDone == 0 {
      CompleteRunNeverCrashes(p, events, n - 1, s, vetoOpt, fit);
    } else {
      CompleteRunBarsNeverCrash(p, events, n, s, vetoOpt, fit, barsDone - 1);
      CompleteBarNeverCrashes(p, events, n, s, vetoOpt, fit, barsDone);
    }
  }

  /** With complete settings, one more bar does not stop a run that has not stopped. */
  lemma CompleteBarNeverCrashes(p: Plots, events: seq<Event>, n: nat, s: RunSettings, vetoOpt: string, fit: Fitter, barsDone: int)
    requires AllWellFormed(events) && 1 <= n <= |events| && 1 <= barsDone <= 5
    requires |p.bars| == 5 && Complete(s)
    requires !RunBars(p, events, n, s, vetoOpt, fit, barsDone - 1).crashed
    ensures !RunBars(p, events, n, s, vetoOpt, fit, barsDone).crashed
  {
    var st := RunBars(p, events, n, s, vetoOpt, fit, barsDone - 1);
    var e := events[n - 1];
    CompleteBarStepNeverCrashes(st.plots, e, barsDone, s, vetoOpt, RightTiming(e, barsDone, fit), LeftTiming(e, barsDone, fit));
  }
}
