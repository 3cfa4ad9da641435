/**
 * Run-type profiles: each known run type fixes the signal and veto
 * amplitude thresholds (mV), the x bin boundaries, the per-bar y centres and
 * the half-width of the fiducial y window. An unknown run type changes nothing.
 */
module RunConfig {
  import opened Wrappers

  datatype RunSettings = RunSettings(
    signalThreshold: real,
    vetoThreshold: real,
    xBoundaries: seq<real>,
    yBoundaries: seq<real>,
    yIntegralOffset: real)

  /** The values the analysis starts from, before any run type is applied. */
  const DefaultSettings: RunSettings := RunSettings(0.0, 0.0, [], [], 0.0)

  /** The three run types the analysis knows. */
  const KnownRunTypes: set<string> := {"all5exposure", "bottomBars_66V", "topBars_66V"}

  function RunProfile(runType: string): Option<RunSettings>
  {
    if runType == "all5exposure" then
      Some(RunSettings(800.0, 100.0, [-2.0, 6.0, 15.0, 24.0, 33.0], [7.5, 12.5, 16.5, 20.5, 24.5], 2.5))
    else if runType == "bottomBars_66V" then
      Some(RunSettings(30.0, 30.0, [17.0, 19.0, 21.0, 23.0, 25.0], [4.5, 9.5, 13.5, 16.5, 20.5], 2.5))
    else if runType == "topBars_66V" then
      Some(RunSettings(30.0, 30.0, [17.0, 19.0, 21.0, 23.0, 25.0], [25.0, 25.0, 2.5, 7.5, 11.5], 1.5))
    else
      None
  }

  /** The settings after applying a run type to `current`. */
  function Apply(current: RunSettings, runType: string): RunSettings
  {
    match RunProfile(runType)
    case Some(profile) => profile
    case None => current
  }

  /** Strictly increasing boundaries. */
  predicate Increasing(xs: seq<real>)
  {
    forall i, j :: 0 <= i < j < |xs| ==> xs[i] < xs[j]
  }

  /**
   * The settings every later cut can rely on: a non-negative signal
   * threshold, one y centre per bar, a non-empty increasing x range and a
   * positive window half-width.
   */
  predicate Complete(s: RunSettings)
  {
    && s.signalThreshold >= 0.0
    && |s.yBoundaries| == 5
    && |s.xBoundaries| == 5
    && Increasing(s.xBoundaries)
    && s.yIntegralOffset > 0.0
  }

  /** Exactly the three named run types have a profile, and every profile is complete. */
  lemma ProfilesAreComplete(runType: string)
    ensures RunProfile(runType).Some? <==> runType in KnownRunTypes
    ensures RunProfile(runType).Some? ==> Complete(RunProfile(runType).value)
  {
  }

  /**
   * Neither a profile nor the defaults ever make the signal threshold
   * negative, so applying run types keeps it non-negative.
   */
  lemma ApplyKeepsThresholdNonNegative(current: RunSettings, runType: string)
    requires current.signalThreshold >= 0.0
    ensures Apply(current, runType).signalThreshold >= 0.0
    ensures runType !in KnownRunTypes ==> Apply(current, runType) == current
    ensures runType in KnownRunTypes ==> Complete(Apply(current, runType))
  {
    ProfilesAreComplete(runType);
  }
}
