/**
 * The veto decision: whether an event seen in one bar is thrown away because
 * of activity in other bars. Five policies, each with a hard-coded table of
 * the channels it inspects per bar; a policy that does not settle the question
 * vetoes (fail-closed).
 */
module Veto {
  import opened Bars

  /** The five policy names the analysis knows. */
  const KnownPolicies: set<string> := {"none", "singleAdj", "doubleAdj", "allAdj", "all"}

  /**
   * The decision as the analysis writes it: policy by policy, bar by bar, a
   * branch that finds every listed channel below the veto threshold keeps the
   * event; falling through every branch vetoes it.
   */
  function ReturnVetoDecision(amp: seq<real>, bar: int, vetoOption: string, vetoThreshold: real): (veto: bool)
    requires |amp| >= ChannelCount
    ensures vetoOption == "none" ==> !veto
    ensures vetoOption !in KnownPolicies ==> veto
    ensures vetoOption != "none" && !IsBar(bar) ==> veto
  {
    var th := vetoThreshold;
    if vetoOption == "none" then false
    else if vetoOption == "singleAdj"
      && (|| (bar == 1 && amp[3] < th)
          || (bar == 2 && amp[5] < th)
          || (bar == 3 && amp[10] < th)
          || (bar == 4 && amp[5] < th)
          || (bar == 5 && amp[10] < th))
    then false
    else if vetoOption == "doubleAdj"
      && (|| (bar == 1 && amp[3] < th && amp[4] < th)
          || (bar == 2 && amp[5] < th && amp[6] < th)
          || (bar == 3 && amp[10] < th && amp[11] < th)
          || (bar == 4 && amp[5] < th && amp[6] < th)
          || (bar == 5 && amp[10] < th && amp[11] < th))
    then false
    else if vetoOption == "allAdj"
      && (|| (bar == 1 && amp[3] < th && amp[4] < th)
          || (bar == 2 && amp[5] < th && amp[6] < th && amp[1] < th && amp[2] < th)
          || (bar == 3 && amp[10] < th && amp[11] < th && amp[3] < th && amp[4] < th)
          || (bar == 4 && amp[5] < th && amp[6] < th && amp[12] < th && amp[13] < th)
          || (bar == 5 && amp[10] < th && amp[11] < th))
    then false
    else if vetoOption == "all"
      && (|| (bar == 1 && amp[3] < th && amp[4] < th && amp[5] < th && amp[6] < th
                       && amp[10] < th && amp[11] < th && amp[12] < th && amp[13] < th)
          || (bar == 2 && amp[1] < th && amp[2] < th && amp[5] < th && amp[6] < th
                       && amp[10] < th && amp[11] < th && amp[12] < th && amp[13] < th)
          || (bar == 3 && amp[1] < th && amp[2] < th && amp[3] < th && amp[4] < th
                       && amp[10] < th && amp[11] < th && amp[12] < th && amp[13] < th)
          || (bar == 4 && amp[1] < th && amp[2] < th && amp[3] < th && amp[4] < th
                       && amp[5] < th && amp[6] < th && amp[12] < th && amp[13] < th)
          || (bar == 5 && amp[1] < th && amp[2] < th && amp[3] < th && amp[4] < th
                       && amp[5] < th && amp[6] < th && amp[10] < th && amp[11] < th))
    then false
    else true
  }

  /** The channels a policy inspects for a bar, as a table (empty where it inspects none). */
  function NeighbourChannels(vetoOption: string, bar: int): set<int>
  {
    match vetoOption
    case "singleAdj" =>
      if bar == 1 then {3} else if bar == 2 then {5} else if bar == 3 then {10}
      else if bar == 4 then {5} else if bar == 5 then {10} else {}
    case "doubleAdj" =>
      if bar == 1 then {3, 4} else if bar == 2 then {5, 6} else if bar == 3 then {10, 11}
      else if bar == 4 then {5, 6} else if bar == 5 then {10, 11} else {}
    case "allAdj" =>
      if bar == 1 then {3, 4} else if bar == 2 then {5, 6, 1, 2} else if bar == 3 then {10, 11, 3, 4}
      else if bar == 4 then {5, 6, 12, 13} else if bar == 5 then {10, 11} else {}
    case "all" =>
      if bar == 1 then {3, 4, 5, 6, 10, 11, 12, 13}
      else if bar == 2 then {1, 2, 5, 6, 10, 11, 12, 13}
      else if bar == 3 then {1, 2, 3, 4, 10, 11, 12, 13}
      else if bar == 4 then {1, 2, 3, 4, 5, 6, 12, 13}
      else if bar == 5 then {1, 2, 3, 4, 5, 6, 10, 11}
      else {}
    case _ => {}
  }

  /** Every channel the table lists is one the event holds. */
  predicate ListedChannels(channels: set<int>)
  {
    forall c :: c in channels ==> 0 <= c < ChannelCount
  }

  /** Every listed channel is strictly below the veto threshold. */
  predicate AllBelow(amp: seq<real>, channels: set<int>, vetoThreshold: real)
    requires |amp| >= ChannelCount && ListedChannels(channels)
  {
    forall c :: c in channels ==> amp[c] < vetoThreshold
  }

  /** The decision as data: never, unless the listed channels are quiet, or always. */
  datatype VetoRule = NeverVeto | VetoUnlessBelow(channels: set<int>) | AlwaysVeto

  function RuleFor(vetoOption: string, bar: int): (rule: VetoRule)
    ensures rule.VetoUnlessBelow? ==> ListedChannels(rule.channels)
  {
    if vetoOption == "none" then NeverVeto
    else if vetoOption in KnownPolicies && IsBar(bar) then VetoUnlessBelow(NeighbourChannels(vetoOption, bar))
    else AlwaysVeto
  }

  /** The branch ladder decides exactly what the declarative table says. */
  lemma VetoFollowsRule(amp: seq<real>, bar: int, vetoOption: string, vetoThreshold: real)
    requires |amp| >= ChannelCount
    ensures ReturnVetoDecision(amp, bar, vetoOption, vetoThreshold) ==
            match RuleFor(vetoOption, bar)
            case NeverVeto => false
            case VetoUnlessBelow(channels) => !AllBelow(amp, channels, vetoThreshold)
            case AlwaysVeto => true
  {
  }

  /**
   * With policy `all`, bar b is kept exactly when every SiPM channel of every
   * other bar is below the veto threshold.
   */
  lemma VetoAllOtherBars(amp: seq<real>, bar: int, vetoThreshold: real)
    requires |amp| >= ChannelCount && IsBar(bar)
    ensures !ReturnVetoDecision(amp, bar, "all", vetoThreshold) <==>
            forall c :: 0 <= c < ChannelCount && BarOfChannel(c) != 0 && BarOfChannel(c) != bar ==> amp[c] < vetoThreshold
  {
    var others := forall c :: 0 <= c < ChannelCount && BarOfChannel(c) != 0 && BarOfChannel(c) != bar ==> amp[c] < vetoThreshold;
    assert BarOfChannel(1) == 1 && BarOfChannel(2) == 1 && BarOfChannel(3) == 2 && BarOfChannel(4) == 2;
    assert BarOfChannel(5) == 3 && BarOfChannel(6) == 3 && BarOfChannel(10) == 4 && BarOfChannel(11) == 4;
    assert BarOfChannel(12) == 5 && BarOfChannel(13) == 5;
    assert BarOfChannel(0) == 0 && BarOfChannel(7) == 0 && BarOfChannel(8) == 0 && BarOfChannel(9) == 0;
  }

  /** No policy ever looks at the bar's own two SiPM channels. */
  lemma VetoIgnoresOwnChannels(amp1: seq<real>, amp2: seq<real>, bar: int, vetoOption: string, vetoThreshold: real)
    requires |amp1| >= ChannelCount && |amp2| >= ChannelCount
    requires forall c :: 0 <= c < ChannelCount && c != ChannelsForBar(bar).right && c != ChannelsForBar(bar).left ==>
               amp1[c] == amp2[c]
    ensures ReturnVetoDecision(amp1, bar, vetoOption, vetoThreshold) == ReturnVetoDecision(amp2, bar, vetoOption, vetoThreshold)
  {
    if IsBar(bar) {
      var own := ChannelsForBar(bar);
      forall c | 0 <= c < ChannelCount && BarOfChannel(c) != bar
        ensures amp1[c] == amp2[c]
      {
        BarOfChannelInverts(bar);
      }
    }
  }

  /** Raising amplitudes can turn a kept event into a vetoed one, never the reverse. */
  lemma VetoMonotone(amp1: seq<real>, amp2: seq<real>, bar: int, vetoOption: string, vetoThreshold: real)
    requires |amp1| >= ChannelCount && |amp2| >= ChannelCount
    requires forall c :: 0 <= c < ChannelCount ==> amp1[c] <= amp2[c]
    ensures ReturnVetoDecision(amp1, bar, vetoOption, vetoThreshold) ==> ReturnVetoDecision(amp2, bar, vetoOption, vetoThreshold)
  {
  }

  /**
   * With policy `singleAdj`, bar 1 is kept exactly when channel 3 is below the
   * veto threshold; channel 4 plays no part.
   */
  lemma SingleAdjBarOneReadsChannelThree(amp: seq<real>, vetoThreshold: real)
    requires |amp| >= ChannelCount
    ensures !ReturnVetoDecision(amp, 1, "singleAdj", vetoThreshold) <==> amp[3] < vetoThreshold
  {
  }
}
