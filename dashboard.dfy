/**
 * `AtlasDashboard`, the window that owns the line chart and the two live
 * price cards, in its two drafts: test2.py's paged window, whose controls
 * reach the chart only while the Overview page is shown, and project.py's
 * single page, whose controls always reach it.
 */
module Dashboard {
  import opened Wrappers
  import opened Text
  import opened Lifecycle
  import opened Snapshot
  import opened RangeWindow
  import opened Countdown
  import opened ChartView
  import opened LineChart
  import opened PriceFeed

  /** The interval buttons above test2.py's chart. */
  const TfButtons: seq<string> := ["1m", "5m", "15m", "30m", "1h", "4h", "1d"]
  /** The interval buttons above project.py's chart: `1d` twice, no `1m`. */
  const PlainTfButtons: seq<string> := ["1d", "5m", "15m", "30m", "1h", "4h", "1d"]

  /** Every interval button names an interval the countdown table knows. */
  lemma TfButtonsKnown()
    ensures forall t :: t in TfButtons || t in PlainTfButtons ==> t in IntervalTags
  {
  }

  /** No range button names an interval, so a range tag taken as an interval falls back to 30 minutes. */
  lemma RangeTagAsInterval(tag: string)
    requires tag in RangeTags
    ensures tag !in IntervalTags && TfSeconds(tag) == DefaultSeconds
  {
  }

  /** The pages test2.py's sidebar can show; only Overview holds a chart. */
  datatype Page = Overview | Orders | Settings

  /** test2.py's window. Its Overview page builds the chart; the live cards are built there too. */
  class PagedDashboard {
    const chart: Chart
    const liveBtc: LivePrice
    const liveEth: LivePrice
    var page: Page

    ghost predicate Valid()
      reads chart`link, chart`timer
    {
      chart.Valid() && chart.draft == Test2Py
    }

    /** The end of `__init__`: the Overview page is shown. */
    constructor(chart: Chart, liveBtc: LivePrice, liveEth: LivePrice)
      requires chart.Valid() && chart.draft == Test2Py
      ensures this.chart == chart && this.liveBtc == liveBtc && this.liveEth == liveEth
      ensures page == Overview && Valid()
    {
      this.chart := chart;
      this.liveBtc := liveBtc;
      this.liveEth := liveEth;
      page := Overview;
    }

    /** `show`. */
    method Show(p: Page)
      modifies this`page
      ensures page == p
    {
      page := p;
    }

    /** `change_range`: on the Overview page, select the range and redraw; elsewhere nothing. */
    method ChangeRange(tf: string)
      requires Valid()
      modifies chart`timeframe, chart`view, chart`events
      ensures Valid()
      ensures page != Overview ==> && chart.timeframe == old(chart.timeframe) && chart.view == old(chart.view)
                                   && chart.events == old(chart.events)
      ensures page == Overview ==> && chart.timeframe == tf
                                   && chart.view == Render(chart.df, Test2Py, tf, chart.cal)
                                   && chart.events == old(chart.events).Then(Drawn)
    {
      if page == Overview {
        chart.SetTimeframe(tf);
      }
    }

    /** `change_tf`: on the Overview page, switch the interval and refresh; elsewhere nothing. */
    method ChangeTf(tf: string, fetched: Fetch, nowMicros: int) returns (raised: bool)
      requires Valid() && WellFormed(fetched)
      modifies chart`interval, chart`df, chart`view, chart`caption, chart`link, chart`timer, chart`events
      ensures Valid()
      ensures page != Overview ==> && !raised && chart.interval == old(chart.interval)
                                   && chart.df == old(chart.df) && chart.view == old(chart.view)
                                   && chart.caption == old(chart.caption) && chart.link == old(chart.link)
                                   && chart.timer == old(chart.timer) && chart.events == old(chart.events)
      ensures page == Overview ==> chart.interval == tf && (raised <==> fetched.FetchFailed?)
      ensures page == Overview && raised ==>
                && chart.df == old(chart.df) && chart.view == old(chart.view) && chart.caption == old(chart.caption)
                && chart.link == old(chart.link) && chart.timer == old(chart.timer)
                && chart.events == old(chart.events).Then(Requested(KlinesRequest(chart.symbol, tf)))
      ensures page == Overview && !raised ==>
                && chart.df == LoadKlines(fetched) && chart.view == Render(chart.df, Test2Py, chart.timeframe, chart.cal)
                && chart.link == Reopen(old(chart.link), KlineTopic(chart.symbol, tf))
                && chart.timer == Schedule(Cancel(old(chart.timer)))
                && chart.caption == CountdownText(nowMicros, tf)
                && chart.events == RefreshEvents(old(chart.events), KlinesRequest(chart.symbol, tf), old(chart.link),
                                                 old(chart.timer), KlineTopic(chart.symbol, tf))
    {
      if page != Overview {
        return false;
      }
      chart.interval := tf;
      raised := chart.Refresh(fetched, nowMicros);
    }

    /**
     * `change_symbol`: on the Overview page, release the stream, switch to
     * the upper-cased symbol and refresh (whose own `start_ws` then finds no
     * socket to release); elsewhere nothing.
     */
    method ChangeSymbol(sym: string, fetched: Fetch, nowMicros: int) returns (raised: bool)
      requires Valid() && WellFormed(fetched)
      modifies chart`symbol, chart`df, chart`view, chart`caption, chart`link, chart`timer, chart`events
      ensures Valid()
      ensures page != Overview ==> && !raised && chart.symbol == old(chart.symbol)
                                   && chart.df == old(chart.df) && chart.view == old(chart.view)
                                   && chart.caption == old(chart.caption) && chart.link == old(chart.link)
                                   && chart.timer == old(chart.timer) && chart.events == old(chart.events)
      ensures page == Overview ==> chart.symbol == Upper(sym) && (raised <==> fetched.FetchFailed?)
      ensures page == Overview && raised ==>
                && chart.df == old(chart.df) && chart.view == old(chart.view) && chart.caption == old(chart.caption)
                && chart.link == Release(old(chart.link)) && chart.timer == old(chart.timer)
                && chart.events == AfterClose(old(chart.events), old(chart.link).held)
                                     .Then(Requested(KlinesRequest(Upper(sym), chart.interval)))
      ensures page == Overview && !raised ==>
                && chart.df == LoadKlines(fetched) && chart.view == Render(chart.df, Test2Py, chart.timeframe, chart.cal)
                && chart.link == Reopen(Release(old(chart.link)), KlineTopic(Upper(sym), chart.interval))
                && chart.timer == Schedule(Cancel(old(chart.timer)))
                && chart.caption == CountdownText(nowMicros, chart.interval)
                && chart.events == RefreshEvents(AfterClose(old(chart.events), old(chart.link).held),
                                                 KlinesRequest(Upper(sym), chart.interval), Release(old(chart.link)),
                                                 old(chart.timer), KlineTopic(Upper(sym), chart.interval))
    {
      if page != Overview {
        return false;
      }
      chart.StopWs();
      var upper := Upper(sym);
      chart.symbol := upper;
      raised := chart.Refresh(fetched, nowMicros);
    }

    /** A range button as test2.py wires it: it calls `change_tf`, so the tag becomes the interval. */
    method RangeButtonAsWired(tag: string, fetched: Fetch, nowMicros: int) returns (raised: bool)
      requires Valid() && WellFormed(fetched) && tag in RangeTags
      modifies chart`interval, chart`df, chart`view, chart`caption, chart`link, chart`timer, chart`events
      ensures Valid()
      ensures page == Overview ==> && chart.interval == tag && chart.timeframe == old(chart.timeframe)
                                   && (!raised ==> chart.caption == CountdownText(nowMicros, tag))
      ensures TfSeconds(tag) == DefaultSeconds
    {
      RangeTagAsInterval(tag);
      raised := ChangeTf(tag, fetched, nowMicros);
    }

    /** A range button wired to `change_range`, as its label promises: nothing is fetched and the interval stays. */
    method RangeButton(tag: string)
      requires Valid()
      modifies chart`timeframe, chart`view, chart`events
      ensures Valid()
      ensures chart.interval == old(chart.interval) && chart.link == old(chart.link)
      ensures page == Overview ==> chart.timeframe == tag && chart.view == Render(chart.df, Test2Py, tag, chart.cal)
    {
      ChangeRange(tag);
    }

    /** `close_all`: stop the chart if the Overview page is shown; the live cards are never stopped. */
    method CloseAll()
      requires Valid()
      modifies chart`link, chart`timer, chart`events
      ensures Valid()
      ensures page == Overview ==> && chart.link == Release(old(chart.link)) && chart.timer == Cancel(old(chart.timer))
                                   && chart.events == AfterClose(AfterCancel(old(chart.events), old(chart.timer).recorded),
                                                                 old(chart.link).held)
      ensures page != Overview ==> chart.link == old(chart.link) && chart.timer == old(chart.timer)
                                   && chart.events == old(chart.events)
    {
      if page == Overview {
        chart.Stop();
      }
    }
  }

  /** project.py's window: one page with the chart and both live cards. */
  class PlainDashboard {
    const chart: Chart
    const liveBtc: LivePrice
    const liveEth: LivePrice

    ghost predicate Valid()
      reads chart`link, chart`timer, liveBtc`link, liveEth`link
    {
      chart.Valid() && chart.draft == ProjectPy && liveBtc.Valid() && liveEth.Valid() && liveBtc != liveEth
    }

    constructor(chart: Chart, liveBtc: LivePrice, liveEth: LivePrice)
      requires chart.Valid() && chart.draft == ProjectPy && liveBtc.Valid() && liveEth.Valid() && liveBtc != liveEth
      ensures this.chart == chart && this.liveBtc == liveBtc && this.liveEth == liveEth
      ensures Valid()
    {
      this.chart := chart;
      this.liveBtc := liveBtc;
      this.liveEth := liveEth;
    }

    /** `change_tf`: switch the interval and refresh; project.py's loader catches a failed request, so the model's refresh does not raise. */
    method ChangeTf(tf: string, fetched: Fetch, nowMicros: int)
      requires Valid() && WellFormed(fetched)
      modifies chart`interval, chart`df, chart`view, chart`caption, chart`link, chart`timer, chart`events
      ensures Valid()
      ensures chart.interval == tf && chart.df == LoadKlines(fetched)
      ensures chart.view == Render(chart.df, ProjectPy, chart.timeframe, chart.cal)
      ensures chart.link == Reopen(old(chart.link), KlineTopic(chart.symbol, tf))
      ensures chart.timer == Schedule(Cancel(old(chart.timer)))
      ensures chart.caption == CountdownText(nowMicros, tf)
      ensures chart.events == RefreshEvents(old(chart.events), KlinesRequest(chart.symbol, tf), old(chart.link),
                                            old(chart.timer), KlineTopic(chart.symbol, tf))
    {
      chart.interval := tf;
      var raised := chart.Refresh(fetched, nowMicros);
    }

    /** `change_symbol`: the symbol is taken as given, and the refresh's `start_ws` releases the old stream. */
    method ChangeSymbol(sym: string, fetched: Fetch, nowMicros: int)
      requires Valid() && WellFormed(fetched)
      modifies chart`symbol, chart`df, chart`view, chart`caption, chart`link, chart`timer, chart`events
      ensures Valid()
      ensures chart.symbol == sym && chart.df == LoadKlines(fetched)
      ensures chart.view == Render(chart.df, ProjectPy, chart.timeframe, chart.cal)
      ensures chart.link == Reopen(old(chart.link), KlineTopic(sym, chart.interval))
      ensures chart.timer == Schedule(Cancel(old(chart.timer)))
      ensures chart.caption == CountdownText(nowMicros, chart.interval)
      ensures chart.events == RefreshEvents(old(chart.events), KlinesRequest(sym, chart.interval), old(chart.link),
                                            old(chart.timer), KlineTopic(sym, chart.interval))
    {
      chart.symbol := sym;
      var raised := chart.Refresh(fetched, nowMicros);
    }

    /** `close_all`: stop both live cards, then the chart. */
    method CloseAll()
      requires Valid()
      modifies chart`link, chart`timer, chart`events, liveBtc`stopFlag, liveBtc`link, liveEth`stopFlag, liveEth`link
      ensures Valid()
      ensures liveBtc.stopFlag && liveEth.stopFlag && Live(liveBtc.link) == {} && Live(liveEth.link) == {}
      ensures liveBtc.link == Close(old(liveBtc.link)) && liveEth.link == Close(old(liveEth.link))
      ensures chart.link == Release(old(chart.link)) && chart.timer == Cancel(old(chart.timer))
      ensures chart.events == AfterClose(AfterCancel(old(chart.events), old(chart.timer).recorded), old(chart.link).held)
    {
      liveBtc.Stop();
      liveEth.Stop();
      chart.Stop();
    }
  }
}
