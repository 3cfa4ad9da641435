/**
 * The analysis object: the run settings chosen by the run type, the veto
 * policy, the test-mode flag and the histograms, filled event by event and
 * bar by bar.
 */
module Analysis {
  import opened Waveform
  import opened Timing
  import opened Bars
  import opened Veto
  import opened RunConfig
  import opened Selection

  /** In test mode the loop stops once more than this many events were counted. */
  const TestModeLimit: nat := 10000

  /**
   * How many events the loop goes through: all of them, or in test mode at
   * most 10001 (the check `nTotal > 10000` comes before the increment).
   */
  function EventsProcessed(n: nat, isTest: bool): (k: nat)
    ensures k <= n
    ensures isTest ==> k <= TestModeLimit + 1
    ensures !isTest || n <= TestModeLimit + 1 ==> k == n
    ensures isTest && n > TestModeLimit + 1 ==> k == TestModeLimit + 1
  {
    if isTest && n > TestModeLimit + 1 then TestModeLimit + 1 else n
  }

  /**
   * The timing part of filling one accepted (event, bar): the per-bar timing
   * profiles and the shared timing histograms, with the four-way tally.
   */
  method FillTimingPlots(b: BarPlots, t: TimingPlots, x: real, mipTimeR: real, mipTimeL: real, mipTimeMCP: real, ampMCP: real)
    returns (b': BarPlots, t': TimingPlots)
    ensures b' == BarTimingFills(b, x, mipTimeR, mipTimeL)
    ensures t' == TimingFills(t, x, mipTimeR, mipTimeL, mipTimeMCP, ampMCP)
  {
    b', t' := b, t;
    if mipTimeR != 0.0 && mipTimeL != 0.0 {
      b' := b'.(rightTimeVsX := b'.rightTimeVsX + [Point(x, mipTimeR)]);
      b' := b'.(leftTimeVsX := b'.leftTimeVsX + [Point(x, mipTimeL)]);
      t' := t'.(logic := t'.logic.(both := t'.logic.both + 1));
      var deltaT := PsPerNs * (mipTimeL - mipTimeR);
      t' := t'.(xVsTimeRes := t'.xVsTimeRes + [Point(x, deltaT)]);
      t' := t'.(timeRes := t'.timeRes + [deltaT]);
      t' := t'.(times := t'.times + [mipTimeL, mipTimeR]);
      if mipTimeMCP != 0.0 && ampMCP > McpGateLow && ampMCP < McpGateHigh {
        var deltaTMcp := PsPerNs * (((mipTimeR + mipTimeL) / 2.0) - mipTimeMCP);
        t' := t'.(xVsMcpRefTimeRes := t'.xVsMcpRefTimeRes + [Point(x, deltaTMcp)]);
        t' := t'.(mcpRefTimeRes := t'.mcpRefTimeRes + [deltaTMcp]);
        t' := t'.(times := t'.times + [mipTimeMCP]);
      }
    }
    if mipTimeR != 0.0 && mipTimeL == 0.0 {
      t' := t'.(logic := t'.logic.(rightOnly := t'.logic.rightOnly + 1));
    }
    if mipTimeR == 0.0 && mipTimeL != 0.0 {
      t' := t'.(logic := t'.logic.(leftOnly := t'.logic.leftOnly + 1));
    }
    if mipTimeR == 0.0 && mipTimeL == 0.0 {
      t' := t'.(logic := t'.logic.(neither := t'.logic.neither + 1));
    }
  }

  class BarAnalysis {
    var signalThreshold: real
    var vetoThreshold: real
    var xBoundaries: seq<real>
    var yBoundaries: seq<real>
    var yIntegralOffset: real
    var vetoOpt: string
    var isTest: bool
    var plots: Plots

    ghost predicate Valid()
      reads this
    {
      signalThreshold >= 0.0 && |plots.bars| == 5
    }

    function Settings(): RunSettings
      reads this
    {
      RunSettings(signalThreshold, vetoThreshold, xBoundaries, yBoundaries, yIntegralOffset)
    }

    /** Defaults, then the run type's profile; the histograms start empty. */
    constructor (runType: string, vetoOpt: string, test: bool)
      ensures Valid()
      ensures Settings() == Apply(DefaultSettings, runType)
      ensures this.vetoOpt == vetoOpt && isTest == test && plots == EmptyPlots
    {
      signalThreshold := 0.0;
      vetoThreshold := 0.0;
      xBoundaries := [];
      yBoundaries := [];
      yIntegralOffset := 0.0;
      this.vetoOpt := vetoOpt;
      isTest := test;
      plots := EmptyPlots;
      new;
      SetVarsByRunType(runType);
    }

    /** Overwrites the settings with the run type's profile; an unknown run type changes nothing. */
    method SetVarsByRunType(runType: string)
      requires Valid()
      modifies this`signalThreshold, this`vetoThreshold, this`xBoundaries, this`yBoundaries, this`yIntegralOffset
      ensures Valid()
      ensures Settings() == Apply(old(Settings()), runType)
      ensures runType in KnownRunTypes ==> Complete(Settings())
    {
      if runType == "all5exposure" {
        signalThreshold := 800.0;
        vetoThreshold := 100.0;
        xBoundaries := [-2.0, 6.0, 15.0, 24.0, 33.0];
        yBoundaries := [7.5, 12.5, 16.5, 20.5, 24.5];
        yIntegralOffset := 2.5;
      } else if runType == "bottomBars_66V" {
        signalThreshold := 30.0;
        vetoThreshold := 30.0;
        xBoundaries := [17.0, 19.0, 21.0, 23.0, 25.0];
        yBoundaries := [4.5, 9.5, 13.5, 16.5, 20.5];
        yIntegralOffset := 2.5;
      } else if runType == "topBars_66V" {
        signalThreshold := 30.0;
        vetoThreshold := 30.0;
        xBoundaries := [17.0, 19.0, 21.0, 23.0, 25.0];
        yBoundaries := [25.0, 25.0, 2.5, 7.5, 11.5];
        yIntegralOffset := 1.5;
      }
      ProfilesAreComplete(runType);
    }

    /**
     * Fills the histograms of one bar for one event. `ok` is false where the
     * analysis would stop with an index error; the leakage fills made before
     * that point stay.
     */
    method FillChannelPlots(e: Event, bar: int, fit: Fitter) returns (ok: bool)
      requires Valid() && WellFormed(e) && IsBar(bar)
      modifies this`plots
      ensures Valid()
      ensures var st := BarStep(old(plots), e, bar, Settings(), vetoOpt, RightTiming(e, bar, fit), LeftTiming(e, bar, fit));
              plots == st.plots && ok == !st.crashed
    {
      var ch := ChannelsForBar(bar);
      var doVetoEvent := ReturnVetoDecision(e.amp, bar, vetoOpt, vetoThreshold);
      ok := true;
      if e.amp[ch.right] > signalThreshold && e.amp[ch.left] > signalThreshold && !doVetoEvent
         && Abs(e.xSlope) < SlopeCut && Abs(e.ySlope) < SlopeCut
      {
        var x, y := e.xDut[TrackPlane], e.yDut[TrackPlane];
        var aR, aL := e.amp[ch.right], e.amp[ch.left];
        // leakage histograms and profiles
        var b := plots.bars[bar - 1];
        b := b.(hits := b.hits + [Point(x, y)]);
        b := b.(mcpAmp := b.mcpAmp + [e.amp[ch.mcp]]);
        b := b.(rightVsLeft := b.rightVsLeft + [Point(aR, aL)]);
        b := b.(ratioVsX := b.ratioVsX + [Point(x, aR / aL)]);
        b := b.(rightAmpVsX := b.rightAmpVsX + [Point(x, aR)]);
        b := b.(leftAmpVsX := b.leftAmpVsX + [Point(x, aL)]);

        // fiducial window; an index past a boundary list stops the analysis
        if bar - 1 >= |yBoundaries| {
          plots := plots.(bars := plots.bars[bar - 1 := b]);
          ok := false;
          return;
        }
        if Abs(y - yBoundaries[bar - 1]) <= yIntegralOffset {
          if |xBoundaries| == 0 {
            plots := plots.(bars := plots.bars[bar - 1 := b]);
            ok := false;
            return;
          }
          if x >= xBoundaries[0] && x <= xBoundaries[|xBoundaries| - 1] {
            b := b.(fiducialHits := b.fiducialHits + [Point(x, y)]);
          }
        }

        assert b == FiducialFill(LeakageFills(plots.bars[bar - 1], x, y, aR, aL, e.amp[ch.mcp]), x, y,
                                 FiducialCut(x, y, bar, Settings()).value);

        // timing
        BarTracesPresent(e, bar);
        var mipTimeR := GetTimingForChannel(e.time, e.channel, ch.time, ch.right, fit);
        var mipTimeL := GetTimingForChannel(e.time, e.channel, ch.time, ch.left, fit);
        var mipTimeMCP := e.tPeak[ch.mcp];
        var t;
        b, t := FillTimingPlots(b, plots.timing, x, mipTimeR, mipTimeL, mipTimeMCP, e.amp[ch.mcp]);
        plots := Plots(plots.bars[bar - 1 := b], t);
      }
    }

    /**
     * The five bars of one event, in order, stopping at an index error: the
     * run of that single event from the histograms as they stood.
     */
    method FillEvent(e: Event, fit: Fitter) returns (ok: bool)
      requires Valid() && WellFormed(e)
      modifies this`plots
      ensures Valid()
      ensures RunEvents(old(plots), [e], 1, Settings(), vetoOpt, fit) == Step(plots, !ok)
    {
      ghost var s, p := Settings(), plots;
      ok := FillChannelPlots(e, 1, fit);
      assert RunBars(p, [e], 1, s, vetoOpt, fit, 1) == Step(plots, !ok);
      if !ok { return; }
      ok := FillChannelPlots(e, 2, fit);
      assert RunBars(p, [e], 1, s, vetoOpt, fit, 2) == Step(plots, !ok);
      if !ok { return; }
      ok := FillChannelPlots(e, 3, fit);
      assert RunBars(p, [e], 1, s, vetoOpt, fit, 3) == Step(plots, !ok);
      if !ok { return; }
      ok := FillChannelPlots(e, 4, fit);
      assert RunBars(p, [e], 1, s, vetoOpt, fit, 4) == Step(plots, !ok);
      if !ok { return; }
      ok := FillChannelPlots(e, 5, fit);
    }

    /** Event `n` of a run continues the run of the events before it. */
    method FillRunEvent(ghost start: Plots, ghost s: RunSettings, events: seq<Event>, n: nat, fit: Fitter) returns (ok: bool)
      requires Valid() && Settings() == s && AllWellFormed(events) && n < |events| && |start.bars| == 5
      requires RunEvents(start, events, n, s, vetoOpt, fit) == Step(plots, false)
      modifies this`plots
      ensures Valid() && Settings() == s
      ensures RunEvents(start, events, n + 1, s, vetoOpt, fit) == Step(plots, !ok)
    {
      RunEventsContinue(start, events, n, s, vetoOpt, fit);
      ok := FillEvent(events[n], fit);
    }

    /**
     * The event loop: counts events, stops early in test mode, and fills the
     * five bars of each event in order. `ok` is false where an index error
     * stopped the analysis; the run then covers the events up to that one.
     */
    method LoopEvents(events: seq<Event>, fit: Fitter) returns (nTotal: nat, ok: bool)
      requires Valid()
      requires AllWellFormed(events)
      modifies this`plots
      ensures Valid()
      ensures nTotal <= EventsProcessed(|events|, isTest)
      ensures var st := RunEvents(old(plots), events, nTotal, Settings(), vetoOpt, fit);
              plots == st.plots && ok == !st.crashed
      ensures ok ==> nTotal == EventsProcessed(|events|, isTest)
    {
      nTotal := 0;
      ok := true;
      ghost var start, s := plots, Settings();
      while nTotal < |events|
        invariant Valid() && Settings() == s
        invariant nTotal <= EventsProcessed(|events|, isTest)
        invariant RunEvents(start, events, nTotal, s, vetoOpt, fit) == Step(plots, false)
      {
        if nTotal > TestModeLimit && isTest {
          break;
        }
        ok := FillRunEvent(start, s, events, nTotal, fit);
        nTotal := nTotal + 1;
        if !ok { return; }
      }
    }
  }
}
