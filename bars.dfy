/**
 * The fixed assignment of the five bars to DRS4 channels: a right and a left
 * SiPM channel, the MCP amplitude channel and the time group whose time block
 * the bar's traces use.
 */
module Bars {

  const FirstBar: int := 1
  const LastBar: int := 5
  /** Channels 0..13 are the ones the analysis reads. */
  const ChannelCount: int := 14

  predicate IsBar(bar: int)
  {
    FirstBar <= bar <= LastBar
  }

  datatype BarChannels = BarChannels(right: int, left: int, mcp: int, time: int)

  /** The channel map; any other bar number keeps the initial -1 everywhere. */
  function ChannelsForBar(bar: int): BarChannels
  {
    if bar == 1 || bar == 2 || bar == 3 then
      BarChannels(2 * bar - 1, 2 * bar, 0, 0)
    else if bar == 4 || bar == 5 then
      BarChannels(2 * bar + 2, 2 * bar + 3, 9, 1)
    else
      BarChannels(-1, -1, -1, -1)
  }

  /** The (right, left) SiPM pairs of bars 1..5, written out. */
  const SiPMPairs: seq<(int, int)> := [(1, 2), (3, 4), (5, 6), (10, 11), (12, 13)]

  /** The bar a SiPM channel belongs to, 0 for channels that belong to no bar. */
  function BarOfChannel(ch: int): int
  {
    if 1 <= ch <= 6 then (ch + 1) / 2
    else if 10 <= ch <= 13 then (ch - 2) / 2
    else 0
  }

  /** The channel map agrees with the written-out table. */
  lemma ChannelsMatchTable(bar: int)
    requires IsBar(bar)
    ensures ChannelsForBar(bar).right == SiPMPairs[bar - 1].0
    ensures ChannelsForBar(bar).left == SiPMPairs[bar - 1].1
    ensures ChannelsForBar(bar).mcp == (if bar <= 3 then 0 else 9)
    ensures ChannelsForBar(bar).time == (if bar <= 3 then 0 else 1)
  {
  }

  /** Each SiPM channel of a bar maps back to that bar, and the MCP channel to none. */
  lemma BarOfChannelInverts(bar: int)
    requires IsBar(bar)
    ensures BarOfChannel(ChannelsForBar(bar).right) == bar
    ensures BarOfChannel(ChannelsForBar(bar).left) == bar
    ensures BarOfChannel(ChannelsForBar(bar).mcp) == 0
  {
  }

  /** The pairs of two different bars share no channel, and every channel is one the event holds. */
  lemma BarChannelsDisjoint(b1: int, b2: int)
    requires IsBar(b1) && IsBar(b2) && b1 != b2
    ensures var c1, c2 := ChannelsForBar(b1), ChannelsForBar(b2);
            {c1.right, c1.left} * {c2.right, c2.left} == {}
    ensures ChannelsForBar(b1).right != ChannelsForBar(b1).left
    ensures 0 < ChannelsForBar(b1).right < ChannelCount && 0 < ChannelsForBar(b1).left < ChannelCount
  {
    BarOfChannelInverts(b1);
    BarOfChannelInverts(b2);
  }
}
