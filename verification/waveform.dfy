/**
 The waveform drawn in the audio box: a row of 48 bars, each drawn active
 when playback progress exceeds the bar's position `i / 48`. Bar heights are
 random and cosmetic and are not part of this model.
 */
module Waveform {
  import opened Home

  const BarCount := 48

  /** Bar `i` is active: `ticks / 50 > i / 48`, cross-multiplied so that it
      is decided on whole numbers. */
  predicate BarActive(ticks: nat, i: nat) {
    ticks * BarCount > i * TicksToEnd
  }

  /** The whole-number test is the comparison of fractions the screen makes. */
  lemma BarActiveMeansPastBar(s: State, i: nat)
    ensures BarActive(s.ticks, i) <==> Progress(s) > i as real / BarCount as real
  {
    var p := Progress(s);
    var b := i as real / BarCount as real;
    assert p * 2400.0 == (s.ticks * BarCount) as real;
    assert b * 2400.0 == (i * TicksToEnd) as real;
  }

  /** How many bars are active: `ceil(48 * ticks / 50)`, at most 48. */
  function ActiveBars(ticks: nat): (n: nat)
    ensures n <= BarCount
  {
    var c := (ticks * BarCount + TicksToEnd - 1) / TicksToEnd;
    if c > BarCount then BarCount else c
  }

  /** The active bars are exactly the first `ActiveBars` ones. */
  lemma ActiveBarsArePrefix(ticks: nat, i: nat)
    requires i < BarCount
    ensures BarActive(ticks, i) <==> i < ActiveBars(ticks)
  {
    var x := ticks * BarCount + TicksToEnd - 1;
    var q := x / TicksToEnd;
    assert x == TicksToEnd * q + x % TicksToEnd;
  }

  /** Draws the bars' active flags, first to last. */
  method RenderWaveform(s: State) returns (bars: seq<bool>)
    ensures |bars| == BarCount
    ensures forall i :: 0 <= i < BarCount ==> (bars[i] <==> Progress(s) > i as real / BarCount as real)
    ensures forall i :: 0 <= i < BarCount ==> (bars[i] <==> i < ActiveBars(s.ticks))
  {
    bars := [];
    var i := 0;
    while i < BarCount
      invariant i <= BarCount && |bars| == i
      invariant forall j :: 0 <= j < i ==> (bars[j] <==> BarActive(s.ticks, j))
    {
      bars := bars + [BarActive(s.ticks, i)];
      i := i + 1;
    }
    forall i | 0 <= i < BarCount
      ensures bars[i] <==> Progress(s) > i as real / BarCount as real
      ensures bars[i] <==> i < ActiveBars(s.ticks)
    {
      BarActiveMeansPastBar(s, i);
      ActiveBarsArePrefix(s.ticks, i);
    }
  }

  /** No bar is active at the start of playback and every bar at the end. */
  lemma StartAndEnd()
    ensures ActiveBars(0) == 0
    ensures ActiveBars(TicksToEnd) == BarCount
  {
  }

  /** More progress never darkens a bar. */
  lemma ActiveBarsMonotone(k1: nat, k2: nat)
    requires k1 <= k2
    ensures ActiveBars(k1) <= ActiveBars(k2)
  {
    var x1 := k1 * BarCount + TicksToEnd - 1;
    var x2 := k2 * BarCount + TicksToEnd - 1;
    assert x1 == TicksToEnd * (x1 / TicksToEnd) + x1 % TicksToEnd;
    assert x2 == TicksToEnd * (x2 / TicksToEnd) + x2 % TicksToEnd;
  }

  /** An interval firing never turns a bar off. */
  lemma TickNeverDarkens(s: State)
    requires Inv(s)
    ensures ActiveBars(s.ticks) <= ActiveBars(Next(s, IntervalFires).ticks)
  {
    TickMonotone(s);
    ActiveBarsMonotone(s.ticks, Next(s, IntervalFires).ticks);
  }
}
