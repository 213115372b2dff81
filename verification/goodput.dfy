/** The post-run reduction of the sinks' received-byte counters into
    goodput, in bits per second, over the window that opens when the senders
    start at second 1.0 and closes at `simStop`. */
module Goodput {

  /** The senders' start time, subtracted from `sim_stop` as the active time. */
  const SENDER_START: real := 1.0

  /** `totalRx * 8.0 / (sim_stop - 1.0)` for one sink. */
  function FlowGoodput(totalRx: nat, simStop: real): (g: real)
    requires simStop != SENDER_START
    ensures g * (simStop - SENDER_START) == totalRx as real * 8.0
  {
    (totalRx as real * 8.0) / (simStop - SENDER_START)
  }

  /** A sink that received nothing reports exactly 0. */
  lemma ZeroBytesZeroGoodput(simStop: real)
    requires simStop != SENDER_START
    ensures FlowGoodput(0, simStop) == 0.0
  {
  }

  /** With a positive active time goodput is never negative and grows with
      the bytes received. */
  lemma GoodputMonotone(a: nat, b: nat, simStop: real)
    requires simStop > SENDER_START
    requires a <= b
    ensures 0.0 <= FlowGoodput(a, simStop) <= FlowGoodput(b, simStop)
  {
    var d := simStop - SENDER_START;
    assert FlowGoodput(b, simStop) - FlowGoodput(a, simStop) == (b - a) as real * 8.0 / d;
  }

  /** Total bytes over all sinks. */
  function Sum(rx: seq<nat>): nat {
    if |rx| == 0 then 0 else Sum(rx[..|rx| - 1]) + rx[|rx| - 1]
  }

  /** The sinks that received something, in sink order. */
  function Active(rx: seq<nat>): (r: seq<nat>)
    ensures forall i :: 0 <= i < |r| ==> r[i] > 0
    ensures forall x :: x in r <==> x in rx && x > 0
    ensures forall x :: x > 0 ==> multiset(r)[x] == multiset(rx)[x]
    decreases |rx|
  {
    if |rx| == 0 then []
    else
      var front := rx[..|rx| - 1];
      assert rx == front + [rx[|rx| - 1]];
      Active(front) + (if rx[|rx| - 1] == 0 then [] else [rx[|rx| - 1]])
  }

  /** Sinks that received nothing add nothing to the total, wherever they
      sit among the others: dropping every idle sink keeps the total. */
  lemma {:induction false} SumIgnoresIdleSinks(rx: seq<nat>)
    ensures Sum(Active(rx)) == Sum(rx)
    decreases |rx|
  {
    if |rx| > 0 {
      var front := rx[..|rx| - 1];
      var last := rx[|rx| - 1];
      SumIgnoresIdleSinks(front);
      if last == 0 {
        assert Active(rx) == Active(front);
      } else {
        assert Active(rx) == Active(front) + [last];
        assert (Active(front) + [last])[..|Active(front)|] == Active(front);
      }
    }
  }

  /** The per-flow report of tcp-variants-comparison-1-a.cc: one goodput
      per sink, in sink order. */
  function PerFlowGoodput(rx: seq<nat>, simStop: real): (gs: seq<real>)
    requires simStop != SENDER_START
    ensures |gs| == |rx|
    ensures forall i :: 0 <= i < |rx| ==> gs[i] * (simStop - SENDER_START) == rx[i] as real * 8.0
  {
    seq(|rx|, i requires 0 <= i < |rx| => FlowGoodput(rx[i], simStop))
  }

  /** Adding one sink's goodput `g` to a running total `t` that accounts
      for `bytes` gives a total `t'` that accounts for `bytes'`, the bytes
      plus that sink's `rx`. */
  lemma AccumulateStep(t: real, g: real, d: real, bytes: real, rx: real, t': real, bytes': real)
    requires t * d == bytes * 8.0 && g * d == rx * 8.0
    requires t' == t + g && bytes' == bytes + rx
    ensures t' * d == bytes' * 8.0
  {
    assert (t + g) * d == t * d + g * d;
  }

  /** From `t * d == x` with `d` non-zero: `t` is `x / d`, and has the sign of
      `x` when `d` is positive. */
  lemma QuotientOf(t: real, d: real, x: real)
    requires d != 0.0 && t * d == x
    ensures t == x / d
    ensures d > 0.0 && x >= 0.0 ==> t >= 0.0
  {
  }

  /** The sum of the per-sink goodputs, in sink order. */
  function SumGoodput(rx: seq<nat>, simStop: real): real
    requires simStop != SENDER_START
  {
    if |rx| == 0 then 0.0
    else SumGoodput(rx[..|rx| - 1], simStop) + FlowGoodput(rx[|rx| - 1], simStop)
  }

  /** Summing the sinks' goodputs is the same as dividing the total bits by
      the active time once. */
  lemma {:induction false} SumGoodputIsTotalBits(rx: seq<nat>, simStop: real)
    requires simStop != SENDER_START
    ensures SumGoodput(rx, simStop) * (simStop - SENDER_START) == Sum(rx) as real * 8.0
  {
    if |rx| > 0 {
      var front := rx[..|rx| - 1];
      var last := rx[|rx| - 1];
      SumGoodputIsTotalBits(front, simStop);
      AccumulateStep(SumGoodput(front, simStop), FlowGoodput(last, simStop), simStop - SENDER_START,
                     Sum(front) as real, last as real, SumGoodput(rx, simStop), Sum(rx) as real);
    }
  }

  /** The three forms in which the aggregate is reported on. */
  lemma SumGoodputForms(rx: seq<nat>, simStop: real)
    requires simStop != SENDER_START
    ensures SumGoodput(rx, simStop) * (simStop - SENDER_START) == Sum(rx) as real * 8.0
    ensures SumGoodput(rx, simStop) == Sum(rx) as real * 8.0 / (simStop - SENDER_START)
    ensures simStop > SENDER_START ==> SumGoodput(rx, simStop) >= 0.0
  {
    SumGoodputIsTotalBits(rx, simStop);
    QuotientOf(SumGoodput(rx, simStop), simStop - SENDER_START, Sum(rx) as real * 8.0);
  }

  /** Idle sinks add nothing to the aggregate either: the goodputs of the
      active sinks alone sum to the same total. */
  lemma SumGoodputIgnoresIdleSinks(rx: seq<nat>, simStop: real)
    requires simStop != SENDER_START
    ensures SumGoodput(Active(rx), simStop) == SumGoodput(rx, simStop)
  {
    SumIgnoresIdleSinks(rx);
    SumGoodputForms(rx, simStop);
    SumGoodputForms(Active(rx), simStop);
  }

  /** The aggregate of tcp-variants-comparison-1-b.cc: `totalGoodput`
      accumulates every sink's goodput; it is 8 times the total bytes over
      the active time, so never negative for a positive active time. */
  method AggregateGoodput(rx: seq<nat>, simStop: real) returns (total: real)
    requires simStop != SENDER_START
    ensures total * (simStop - SENDER_START) == Sum(rx) as real * 8.0
    ensures total == Sum(rx) as real * 8.0 / (simStop - SENDER_START)
    ensures simStop > SENDER_START ==> total >= 0.0
  {
    total := 0.0;
    var i := 0;
    while i < |rx|
      invariant 0 <= i <= |rx|
      invariant total == SumGoodput(rx[..i], simStop)
    {
      assert rx[..i + 1][..i] == rx[..i];
      total := total + FlowGoodput(rx[i], simStop);
      i := i + 1;
    }
    assert rx[..|rx|] == rx;
    SumGoodputForms(rx, simStop);
  }
}
