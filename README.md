# Testbeam bar analysis: selection and timing bookkeeping

A model of the event selection and timing bookkeeping of `barClass`, the
analysis of scintillator-bar testbeam data. Five bars are read out by a DRS4
digitizer, each through a right and a left SiPM channel. Two MCP channels give
the timing reference. For every event of the run, and for each bar in turn,
the analysis works in these steps:

- It decides whether the event passes that bar's selection: both SiPM
  amplitudes above the run type's signal threshold, not vetoed by activity in
  neighbouring bars, and a straight track.
- It fills the bar's leakage histograms and, inside a fiducial window, its
  fiducial map.
- It extracts a leading-edge time from each SiPM trace. The trace is a
  1024-sample slice of the event's flat arrays. A threshold finder picks where
  the fit starts, an external fit is run, and a validity gate keeps the result.
- It tallies which of the two timings are results and records the
  left-minus-right and MCP-relative time differences.

The project is organised one module per concern:

| module | file | what it holds |
|---|---|---|
| `Wrappers` | `wrappers.dfy` | `Option` |
| `Waveform` | `waveform.dfy` | The threshold finders (a loop, proved against the recursive `FirstCrossing`). |
| `Timing` | `timing.dfy` | Trace slicing (a loop), the fit-range guard, the validity gate and `GetTimingForChannel`. The fit is the parameter `fit`. |
| `Bars` | `bars.dfy` | The bar-to-channel map. |
| `Veto` | `veto.dfy` | `returnVetoDecision` as its literal branch ladder, plus a declarative table it is proved equal to. |
| `RunConfig` | `runconfig.dfy` | The three run-type profiles. |
| `Selection` | `selection.dfy` | The event record and the histograms. `BarStep` is one (event, bar) step as a function. `RunBars` and `RunEvents` are whole runs. The lemmas cover the cuts, the tally and the derived quantities. |
| `Analysis` | `analysis.dfy` | The class `BarAnalysis`. Its fields are the settings, the veto policy, the test flag and the histograms. Its methods are `SetVarsByRunType`, `FillChannelPlots` and `LoopEvents`, each proved against the functions of `Selection`. |

Histograms are modelled as the lists of values filled into them, in filling
order. The timing-logic histogram is modelled as four counters.

An unknown run type leaves the boundary lists empty. The first accepted event
then indexes past their end (`barClass.py` line 228), and the analysis stops
with an index error. The model represents that stop as `Step.crashed` and as
`ok == false` from the methods. The leakage fills made just before the stop are
kept, as in the source.

Under the `singleAdj` veto policy, bar 1 consults only channel 3 (line 144),
not channel 4, although its neighbour, bar 2, is read out on channels 3 and 4.
`Veto.SingleAdjBarOneReadsChannelThree` states this.

## Model

| member | source | states |
|---|---|---|
| Waveform.FirstCrossingIsFirst | analysisCode/barClass.py:391-398 | The finder's result is -1 or an index of the trace. It is -1 exactly when no sample's absolute value exceeds the threshold. Otherwise the sample at the result exceeds it and no earlier one does. |
| Waveform.FirstCrossingUnique | analysisCode/barClass.py:395-398 | Any index that is the first crossing is the finder's result: later crossings never overwrite it. |
| Waveform.FirstCrossingMonotone | analysisCode/barClass.py:395-398 | A lower threshold is crossed too, and no later than a higher one. So the MCP finder (20 mV) never starts after the SiPM finder (30 mV) on the same trace. |
| Waveform.FindFirstCrossing | analysisCode/barClass.py:391-402 | The loop with its `threshold_stamp == -1` guard returns the first index whose absolute value exceeds the threshold, or -1 when there is none. |
| Waveform.GetWaveformInfoTOFPET | analysisCode/barClass.py:387-402 | The SiPM finder: the first index with absolute value above 30 mV, or -1. |
| Waveform.GetWaveformInfoMCP | analysisCode/barClass.py:406-421 | The MCP finder: the first index with absolute value above 20 mV, or -1. |
| Timing.TraceTimes | analysisCode/barClass.py:280-281 | The time trace of a time group has exactly 1024 samples. |
| Timing.TraceVolts | analysisCode/barClass.py:280-282 | The voltage trace of a channel has exactly 1024 samples. |
| Timing.SliceTrace | analysisCode/barClass.py:276-283 | The copying loop yields exactly 1024 samples. Sample i has time `time[drs_time*1024 + i]`, taken from the time group's block, and voltage `-channel[drs_channel*1024 + i]`. |
| Timing.ValidateScan | analysisCode/barClass.py:350-354 | The gate returns 0 or the scan's stopping time, and the latter only when it lies strictly inside (evalFit, evalFit + 30). Every stopping time inside that window is returned unchanged. |
| Timing.GetTimingForChannel | analysisCode/barClass.py:271-354 | SiPM channels use the 30 mV finder and a window of 7. Channels 0 and 9 use the 20 mV finder and a window of 4. When the start index is at most 1 or start + window reaches 1024 (including -1, "not found"), no fit runs and the result is 0. Otherwise the result is 0 or the fitted stopping time strictly inside (evalFit, evalFit + 30). |
| Timing.QuietTraceHasNoTiming | analysisCode/barClass.py:294-305 | A trace whose rectified samples never exceed the start threshold yields timing 0, whatever the fit would do. |
| Timing.EdgeCrossingHasNoTiming | analysisCode/barClass.py:294-305 | A trace whose first crossing is sample 0 or 1, or lies within the fit window of the end, yields timing 0. |
| Bars.ChannelsMatchTable | analysisCode/barClass.py:202-213 | Bars 1-3 map to (2b-1, 2b) with MCP channel 0 and time group 0. Bars 4-5 map to (2b+2, 2b+3) with MCP channel 9 and time group 1. Together these are the pairs (1,2), (3,4), (5,6), (10,11), (12,13). |
| Bars.BarOfChannelInverts | analysisCode/barClass.py:202-213 | Each SiPM channel of a bar belongs to that bar alone, and the MCP channel belongs to no bar. |
| Bars.BarChannelsDisjoint | analysisCode/barClass.py:202-213 | The (right, left) pairs of two different bars share no channel. The two channels of a bar differ, and both lie in 1..13. |
| Veto.ReturnVetoDecision | analysisCode/barClass.py:137-192 | Policy `none` never vetoes. An unknown policy string always vetoes. A known policy other than `none` vetoes every bar number outside 1..5. |
| Veto.RuleFor | analysisCode/barClass.py:143-188 | Every channel the policy tables list is one of the event's channels 0..13. |
| Veto.VetoFollowsRule | analysisCode/barClass.py:140-192 | The branch ladder equals the declarative rule. `none` never vetoes. A known policy, for bars 1-5, vetoes unless every channel in its table is strictly below the veto threshold. Anything else vetoes (fail-closed). |
| Veto.VetoAllOtherBars | analysisCode/barClass.py:178-188 | Under `all`, bar b is kept iff the SiPM channels of all four other bars are below the veto threshold. |
| Veto.VetoIgnoresOwnChannels | analysisCode/barClass.py:143-188 | Events that differ only in the bar's own two SiPM amplitudes get the same decision, under every policy. |
| Veto.VetoMonotone | analysisCode/barClass.py:140-192 | Raising amplitudes never turns a veto into a keep. |
| Veto.SingleAdjBarOneReadsChannelThree | analysisCode/barClass.py:143-145 | Under `singleAdj`, bar 1 is kept iff channel 3 is below the veto threshold. |
| RunConfig.ProfilesAreComplete | analysisCode/barClass.py:113-133 | Exactly the three named run types have a profile. Each profile has a non-negative signal threshold, five y centres, five increasing x boundaries and a positive window half-width. |
| RunConfig.ApplyKeepsThresholdNonNegative | analysisCode/barClass.py:113-133 | Applying a run type keeps the signal threshold non-negative. An unknown run type changes nothing. A known one gives complete settings. |
| Selection.BarStep | analysisCode/barClass.py:198-267 | One (event, bar) step keeps the five per-bar histogram sets. |
| Selection.BarTracesPresent | analysisCode/barClass.py:233-234 | The time block and both SiPM channel blocks a bar reads lie inside a well-formed event. |
| Selection.AcceptedAmplitudesPositive | analysisCode/barClass.py:218-223 | Since the signal threshold is non-negative, an accepted event has both SiPM amplitudes positive, so the right/left ratio is defined. |
| Selection.LeakageFilledIffAccepted | analysisCode/barClass.py:218-225 | The cut is: both SiPM amplitudes above the signal threshold, no veto, and both slopes below 0.0004 in absolute value. When it holds, the six leakage histograms gain the track position, MCP amplitude, amplitude pair, ratio and amplitudes. When it fails, nothing changes. |
| Selection.OtherBarsUntouched | analysisCode/barClass.py:198-267 | A step never changes another bar's histograms. |
| Selection.CrashIffMissingBoundary | analysisCode/barClass.py:228 | A step stops with an index error iff the event is accepted and either there is no y centre for the bar, or the y window holds and the x boundary list is empty. |
| Selection.CompleteBarStepNeverCrashes | analysisCode/barClass.py:228 | With complete settings (those of every known run type) a step never stops. |
| Selection.FiducialFilledIffInWindow | analysisCode/barClass.py:228-229 | The fiducial map gains (x, y) iff the event is accepted, \|y - yBoundaries[b-1]\| <= yIntegralOffset, and xBoundaries[0] <= x <= xBoundaries[last]. |
| Selection.TallyCountsOnce | analysisCode/barClass.py:238-265 | Each counted (event, bar) adds one to exactly one of Both / R only / L only / None, chosen by which timings are non-zero. An event that is not counted adds nothing. |
| Selection.TimeResOnlyForBoth | analysisCode/barClass.py:238-247 | deltaT = 1000 * (tL - tR) is recorded, with and without x, exactly in the Both case. |
| Selection.McpRefOnlyWhenGated | analysisCode/barClass.py:251-255 | 1000 * ((tR + tL)/2 - tMCP) is recorded, with and without x, exactly in the Both case with a non-zero MCP peak time and an MCP amplitude strictly between 80 and 160. |
| Selection.TimeProfilesOnlyForBoth | analysisCode/barClass.py:238-240 | The bar's right and left time-versus-x profiles gain (x, tR) and (x, tL) exactly in the Both case, and are unchanged otherwise. |
| Selection.AllTimesRecorded | analysisCode/barClass.py:238-256 | The histogram of all times gains tL then tR in the Both case, followed by tMCP when the MCP gate also holds. Otherwise it is unchanged. |
| Selection.RunEvents | analysisCode/barClass.py:431-448 | A run of events keeps the five per-bar histogram sets. |
| Selection.RunBars | analysisCode/barClass.py:439-448 | A run whose last event has been through bars 1 .. barsDone keeps the five per-bar histogram sets. |
| Selection.RunEventsContinue | analysisCode/barClass.py:431-448 | One more event continues the run from where it stood, as a run of that single event. A stopped run stays stopped. |
| Selection.RunBarsContinue | analysisCode/barClass.py:439-448 | The bars of event n, run after the first n events, are the bars of that event run alone from where the run stood. |
| Selection.CrashStays | analysisCode/barClass.py:431-448 | Once the run has stopped, the next event's bars change nothing. |
| Selection.BarStepTally | analysisCode/barClass.py:238-265 | A step that does not stop grows the tally by one exactly when the bar accepts the event. |
| Selection.RunEventsTally | analysisCode/barClass.py:431-448 | Over a run that does not stop, the timing-logic histogram gains exactly one entry per accepted (event, bar) pair. |
| Selection.RunBarsTally | analysisCode/barClass.py:439-448 | The same count holds part-way through an event. |
| Selection.CompleteRunNeverCrashes | analysisCode/barClass.py:431-448 | With the settings of a known run type, no run of well-formed events ever stops early. |
| Selection.CompleteRunBarsNeverCrash | analysisCode/barClass.py:439-448 | The same holds part-way through an event. |
| Analysis.EventsProcessed | analysisCode/barClass.py:431-435 | Outside test mode every event is processed. In test mode the loop processes all events when there are at most 10001, and exactly 10001 otherwise, because `nTotal > 10000` is tested before the increment. |
| Analysis.FillTimingPlots | analysisCode/barClass.py:238-265 | The timing branch of `fillChannelPlots`, written as the source writes it, computes exactly the per-bar timing profiles and shared timing fills the step functions define. |
| Analysis.BarAnalysis.constructor | analysisCode/barClass.py:11-21 | Starts from zero thresholds and empty boundaries, then applies the run type's profile. The histograms start empty, and the policy and test flag are stored. |
| Analysis.BarAnalysis.SetVarsByRunType | analysisCode/barClass.py:113-133 | Overwrites the five settings with the run type's profile. An unknown run type leaves them unchanged, and a known one makes them complete. |
| Analysis.BarAnalysis.FillChannelPlots | analysisCode/barClass.py:198-267 | Changes only the histograms, to exactly what one (event, bar) step gives when its timings come from `GetTimingForChannel` on the bar's SiPM channels. `ok` is false exactly where that step stops. |
| Analysis.BarAnalysis.FillEvent | analysisCode/barClass.py:439-448 | Bars 1 to 5 in order give exactly the run of that single event from the current histograms, stopping at the first index error. |
| Analysis.BarAnalysis.FillRunEvent | analysisCode/barClass.py:431-448 | Processing event n of a run that has not stopped gives the run of the first n + 1 events. |
| Analysis.BarAnalysis.LoopEvents | analysisCode/barClass.py:425-448 | The loop processes at most `EventsProcessed(n, isTest)` events, and exactly that many when nothing stops it. The histograms end as the run of the processed events, and `ok` is false exactly when that run stopped. |

## Left out

- ROOT histogram objects, canvases, styles and all `draw*` functions (lines 34-99, 452 onwards). They are presentation over a foreign library. The fills are modelled as appended values, and binning, ranges and profile averaging are not modelled.
- The Landau fit, `fnR.Eval`, and the rewind and forward scans in steps of 0.001 ns (lines 306-348). They are foreign numerical fitting and floating-point accumulation, so they are the parameter `fit`. `fit` is called with the 1024-sample trace, the start index, the window and the voltage to reach, and returns evalFit and the stopping time. Only the range guard and the validity gate are modelled around it.
- The TGraph copy of the trace (lines 286-290). It only feeds the fit.
- Directory creation through `os.system` (lines 102-106) and every `print` diagnostic (for example lines 258, 314, 348, 428, 437). These are I/O.
- The periodic waveform snapshot images keyed on `i_evt` (lines 310-314). These are I/O, so `i_evt` is not part of the event record.
- `getWaveformInfo` (lines 358-383). Nothing calls it.
- The unused `time` argument of `getWaveformInfo_TOFPET` and `getWaveformInfo_MCP`. The finders read only the voltages.
- The constructor's call to `loopEvents` (line 109). In the model the loop is the separate method `LoopEvents`, called on the constructed object.
- Iteration over the ROOT tree. The events are a sequence of records given to `LoopEvents`.
- `float` arithmetic. Amplitudes, times and slopes are exact reals, so rounding in the ratio and the time differences is not modelled.
- Events too short for the indices the analysis reads. In the source these raise a Python index error. In the model, `WellFormed` (and `AllWellFormed` for a run) is a precondition.
- Bar numbers outside 1..5 in `fillChannelPlots`. The loop only passes 1..5, so `FillChannelPlots` requires a bar number.
- Selection.RunEvents, Selection.RunBars, Selection.BarStep: their own ensures state only that the five per-bar histogram sets are kept. For `BarStep`, the cut, the leakage, fiducial, timing-profile and time-difference fills, the histogram of all times, the tally, the stop condition and the other bars are each stated by a lemma beside it (`LeakageFilledIffAccepted` through `AllTimesRecorded`). For the runs, the continuation, stop, tally and never-stop lemmas state what they compute. No run-level lemma restates every histogram fill over a whole run.
