/**
 * What one `draw_chart` call puts on screen, reduced to the decisions it makes:
 * the "No chart data" path, the colour of each close-to-close line segment and
 * of each volume bar, and the row whose prices label the last-price line and
 * the O/H/L/C caption.
 */
module ChartView {
  import opened Trend
  import opened Candles
  import opened RangeWindow

  /** project.py's chart always draws the whole series; test2.py's applies the selected range first. */
  datatype Draft = ProjectPy | Test2Py

  datatype View =
    | NoData
    | Plot(segments: seq<Trend>, bars: seq<Trend>, last: Candle)

  /** Segment `i` joins rows `i` and `i + 1` and rises when the later close is not lower. */
  function SegmentTrends(df: Series): (r: seq<Trend>)
    ensures |r| == if |df| == 0 then 0 else |df| - 1
    ensures forall i :: 0 <= i < |r| ==> (r[i] == Up <==> df[i + 1].close >= df[i].close)
  {
    if |df| == 0 then []
    else seq(|df| - 1, i requires 0 <= i < |df| - 1 => Between(df[i].close, df[i + 1].close))
  }

  /** Volume bar `i` rises when its row closed at or above its open. */
  function BarTrends(df: Series): (r: seq<Trend>)
    ensures |r| == |df|
    ensures forall i :: 0 <= i < |r| ==> (r[i] == Up <==> df[i].close >= df[i].open)
  {
    seq(|df|, i requires 0 <= i < |df| => Between(df[i].open, df[i].close))
  }

  /** The frame `draw_chart` plots: `sort_index()` of the series, or of the selected range of it. */
  function Shown(df: Series, draft: Draft, timeframe: string, cal: Calendar): (w: Series)
    ensures |w| <= |df|
  {
    match draft
    case ProjectPy => SortByKey(df)
    case Test2Py => SortByKey(Select(df, timeframe, cal))
  }

  /** A non-empty series always has a row in any range window: the newest key is never before the start. */
  lemma SelectNonEmpty(s: Series, tag: string, cal: Calendar)
    requires Sound(cal) && |s| > 0
    ensures |Select(s, tag, cal)| > 0
  {
    var anchor := MaxKey(s);
    var i :| 0 <= i < |s| && s[i].time == anchor;
    match WindowStart(tag, anchor, cal)
    case None =>
    case Some(start) =>
      SinceMembers(s, start);
      assert s[i] in Since(s, start);
  }

  /** `draw_chart`. */
  function Render(df: Series, draft: Draft, timeframe: string, cal: Calendar): (v: View)
    requires Sound(cal)
    ensures v.NoData? <==> |df| == 0
  {
    if |df| == 0 then NoData
    else
      SelectNonEmpty(df, timeframe, cal);
      var w := Shown(df, draft, timeframe, cal);
      Plot(SegmentTrends(w), BarTrends(w), w[|w| - 1])
  }

  /** A non-empty series is plotted from the frame `Shown` selects, which is never empty. */
  lemma RenderPlots(df: Series, draft: Draft, timeframe: string, cal: Calendar)
    requires Sound(cal) && |df| > 0
    ensures var v := Render(df, draft, timeframe, cal);
      var w := Shown(df, draft, timeframe, cal);
      && v.Plot? && |w| > 0
      && v.segments == SegmentTrends(w) && v.bars == BarTrends(w)
      && v.last == w[|w| - 1]
  {
    SelectNonEmpty(df, timeframe, cal);
  }

  /** On a sorted series, sorting again is a no-op and the last-price row is the newest row, whatever the range. */
  lemma RenderShowsNewest(df: Series, draft: Draft, timeframe: string, cal: Calendar)
    requires Sound(cal) && StrictlySorted(df) && |df| > 0
    ensures Render(df, draft, timeframe, cal).last == df[|df| - 1]
  {
    RenderPlots(df, draft, timeframe, cal);
    ShownKeepsNewest(df, draft, timeframe, cal);
  }

  /** Both drafts' frames end with the newest row of a sorted series. */
  lemma ShownKeepsNewest(df: Series, draft: Draft, timeframe: string, cal: Calendar)
    requires Sound(cal) && StrictlySorted(df) && |df| > 0
    ensures var w := Shown(df, draft, timeframe, cal); |w| > 0 && w[|w| - 1] == df[|df| - 1]
  {
    if draft == ProjectPy {
      ShownIsSelection(df, draft, timeframe, cal);
    } else {
      RangeKeepsNewest(df, timeframe, cal);
    }
  }

  lemma RangeKeepsNewest(df: Series, timeframe: string, cal: Calendar)
    requires Sound(cal) && StrictlySorted(df) && |df| > 0
    ensures var w := Shown(df, Test2Py, timeframe, cal); |w| > 0 && w[|w| - 1] == df[|df| - 1]
  {
    ShownIsSelection(df, Test2Py, timeframe, cal);
    StrictlyIsKeyOrdered(df);
    SelectKeepsNewest(df, timeframe, cal);
  }

  /** On a sorted series the re-sort is a no-op: each draft shows its selection as it stands. */
  lemma ShownIsSelection(df: Series, draft: Draft, timeframe: string, cal: Calendar)
    requires Sound(cal) && StrictlySorted(df) && |df| > 0
    ensures Shown(df, draft, timeframe, cal) == if draft == ProjectPy then df else Select(df, timeframe, cal)
  {
    if draft == ProjectPy {
      SortSorted(df);
    } else {
      SelectSorted(df, timeframe, cal);
      SortSorted(Select(df, timeframe, cal));
    }
  }

  /** A range of a strictly sorted series is strictly sorted. */
  lemma SelectSorted(df: Series, timeframe: string, cal: Calendar)
    requires Sound(cal) && StrictlySorted(df) && |df| > 0
    ensures StrictlySorted(Select(df, timeframe, cal))
  {
    if timeframe in RangeTags && timeframe != "ALL" {
      var k := SelectWindow(df, timeframe, cal);
      assert Select(df, timeframe, cal) == df[k..];
    }
  }

  /** project.py's chart colours every segment and bar of the whole sorted series. */
  lemma RenderWholeSeries(df: Series, timeframe: string, cal: Calendar)
    requires Sound(cal) && StrictlySorted(df) && |df| > 0
    ensures var v := Render(df, ProjectPy, timeframe, cal);
      v.segments == SegmentTrends(df) && v.bars == BarTrends(df)
  {
    RenderPlots(df, ProjectPy, timeframe, cal);
    SortSorted(df);
  }

  /** Colours depend only on the rows they describe, so a window's colours are the tail of the whole series'. */
  lemma TrendsOfSuffix(df: Series, k: nat)
    requires k < |df|
    ensures SegmentTrends(df[k..]) == SegmentTrends(df)[k..]
    ensures BarTrends(df[k..]) == BarTrends(df)[k..]
  {
    SegmentsOfSuffix(df, k);
    BarsOfSuffix(df, k);
  }

  lemma SegmentsOfSuffix(df: Series, k: nat)
    requires k < |df|
    ensures SegmentTrends(df[k..]) == SegmentTrends(df)[k..]
  {
    var w := df[k..];
    var a, b := SegmentTrends(w), SegmentTrends(df)[k..];
    assert |a| == |b|;
    forall i | 0 <= i < |a|
      ensures a[i] == b[i]
    {
      assert w[i] == df[k + i] && w[i + 1] == df[k + i + 1];
      assert b[i] == SegmentTrends(df)[k + i];
    }
  }

  lemma BarsOfSuffix(df: Series, k: nat)
    requires k < |df|
    ensures BarTrends(df[k..]) == BarTrends(df)[k..]
  {
    var w := df[k..];
    var a, b := BarTrends(w), BarTrends(df)[k..];
    assert |a| == |b|;
    forall i | 0 <= i < |a|
      ensures a[i] == b[i]
    {
      assert w[i] == df[k + i];
      assert b[i] == BarTrends(df)[k + i];
    }
  }

  /**
   * test2.py's chart on a sorted series with a range selected: the colours
   * shown are exactly the last colours of the full chart, from the first row
   * inside the window on.
   */
  lemma RangeColoursAreSuffix(df: Series, timeframe: string, cal: Calendar) returns (k: nat)
    requires Sound(cal) && StrictlySorted(df) && |df| > 0
    requires timeframe in RangeTags && timeframe != "ALL"
    ensures k < |df|
    ensures var v := Render(df, Test2Py, timeframe, cal);
      v.segments == SegmentTrends(df)[k..] && v.bars == BarTrends(df)[k..]
  {
    RenderPlots(df, Test2Py, timeframe, cal);
    k := SelectWindow(df, timeframe, cal);
    assert Select(df, timeframe, cal) == df[k..];
    SortSorted(df[k..]);
    TrendsOfSuffix(df, k);
  }
}
