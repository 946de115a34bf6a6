/**
 * `CandleChart._draw` of the ticker dashboard: for each candle, a wick from
 * low to high and a body rectangle from the lower of open and close, at least
 * 2% of the candle's range tall so that a flat candle stays visible, both in
 * the candle's colour. An empty reply leaves the previous plot on screen.
 */
module CandlePlot {
  import opened Trend
  import opened Candles

  /** What `_draw` adds to the axes for the candle at index `x`. */
  datatype Mark = Mark(x: nat, trend: Trend, wickLow: real, wickHigh: real, base: real, height: real)

  /** The smallest body drawn, as a fraction of the candle's range. */
  const MinBodyShare: real := 0.02

  function Abs(r: real): real
  {
    if r < 0.0 then -r else r
  }

  function Min(a: real, b: real): (m: real)
    ensures m <= a && m <= b && (m == a || m == b)
  {
    if a <= b then a else b
  }

  function Max(a: real, b: real): (m: real)
    ensures m >= a && m >= b && (m == a || m == b)
  {
    if a >= b then a else b
  }

  /** Body and wick of one candle. */
  function MarkOf(x: nat, c: Candle): (m: Mark)
    ensures m.x == x && m.wickLow == c.low && m.wickHigh == c.high
    ensures m.trend == Up <==> c.close >= c.open
    ensures m.base <= c.open && m.base <= c.close && (m.base == c.open || m.base == c.close)
    ensures m.base + m.height >= c.open && m.base + m.height >= c.close
    ensures m.height >= (c.high - c.low) * MinBodyShare
  {
    Mark(x, Between(c.open, c.close), c.low, c.high, Min(c.open, c.close),
         Max(Abs(c.close - c.open), (c.high - c.low) * MinBodyShare))
  }

  /** A candle whose open and close lie within its low and high. */
  predicate Consistent(c: Candle)
  {
    c.low <= c.open <= c.high && c.low <= c.close <= c.high
  }

  /**
   * For a consistent candle the body starts inside the wick, and unless the
   * body had to be stretched to its minimum it ends exactly at the higher of
   * open and close, so inside the wick as well.
   */
  lemma BodyWithinWick(x: nat, c: Candle)
    requires Consistent(c)
    ensures var m := MarkOf(x, c); c.low <= m.base <= c.high
    ensures var m := MarkOf(x, c);
      Abs(c.close - c.open) >= (c.high - c.low) * MinBodyShare ==>
        m.base + m.height == Max(c.open, c.close) <= c.high
  {
  }

  class CandleChart {
    /** The marks on the axes, in index order. */
    var marks: seq<Mark>

    constructor()
      ensures marks == []
    {
      marks := [];
    }

    /** `_draw`: nothing for an empty reply; otherwise clear the axes and add one mark per candle. */
    method Draw(candles: seq<Candle>)
      modifies this`marks
      ensures |candles| == 0 ==> marks == old(marks)
      ensures |candles| > 0 ==> |marks| == |candles|
      ensures |candles| > 0 ==> forall i :: 0 <= i < |candles| ==> marks[i] == MarkOf(i, candles[i])
    {
      if |candles| == 0 {
        return;
      }
      marks := [];
      var i := 0;
      while i < |candles|
        invariant 0 <= i <= |candles|
        invariant |marks| == i
        invariant forall k :: 0 <= k < i ==> marks[k] == MarkOf(k, candles[k])
      {
        marks := marks + [MarkOf(i, candles[i])];
        i := i + 1;
      }
    }
  }
}
