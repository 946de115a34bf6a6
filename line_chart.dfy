/**
 * `TVLineChart`, as both dashboards define it: the candle series, the one
 * kline stream that feeds it, the once-a-second countdown timer, and the
 * order in which `refresh` and `stop` touch them. Sockets and Tk `after`
 * jobs are opaque numbers kept in a `Link` and a `Timer`; `events` records,
 * in order, every request, redraw, socket and timer action the chart performs.
 */
module LineChart {
  import opened Wrappers
  import opened Text
  import opened Candles
  import opened Snapshot
  import opened RangeWindow
  import opened Countdown
  import opened ChartView
  import opened Lifecycle

  /** A decoded `@kline_` frame, or one whose JSON or fields do not parse (the callback raises and the client swallows it). */
  datatype KlineMsg = Kline(candle: Candle) | Malformed

  datatype Event =
    | Requested(q: Request)
    | Drawn
    | Opened(h: Handle, topic: string)
    | CloseCalled(h: Handle)
    | Scheduled(j: Job)
    | Cancelled(j: Job)

  /** The stream path `start_ws` connects to. */
  function KlineTopic(symbol: string, interval: string): string
  {
    Lower(symbol) + "@kline_" + interval
  }

  /** The chart's history, newest event last. */
  datatype Trace = Begin | Append(before: Trace, event: Event)
  {
    function Then(e: Event): Trace
    {
      Append(this, e)
    }
  }

  /** The close `stop_ws` issues, if it holds a socket. */
  function AfterClose(t: Trace, ws: Option<Handle>): Trace
  {
    if ws.Some? then t.Then(CloseCalled(ws.value)) else t
  }

  /** The `after_cancel` issued when a job is recorded. */
  function AfterCancel(t: Trace, job: Option<Job>): Trace
  {
    if job.Some? then t.Then(Cancelled(job.value)) else t
  }

  /**
   * What a successful `refresh` adds to the trace `before`: the request `q`,
   * the redraw, `start_ws`'s close of the socket held in `l` and its open of
   * `topic`, the cancel of the job recorded in `t`, and the new tick.
   */
  function RefreshEvents(before: Trace, q: Request, l: Link, t: Timer, topic: string): Trace
  {
    AfterCancel(AfterClose(before.Then(Requested(q)).Then(Drawn), l.held).Then(Opened(l.next, topic)), t.recorded)
      .Then(Scheduled(t.next))
  }

  /** The countdown caption for a clock reading and an interval tag. */
  function CountdownText(nowMicros: int, interval: string): string
  {
    Label(Split(Remaining(nowMicros, TfSeconds(interval))))
  }

  class Chart {
    const draft: Draft
    const cal: SoundCalendar
    var symbol: string
    var interval: string
    /** The selected range; project.py's chart has none and always shows everything. */
    var timeframe: string
    var df: Sorted
    var view: View
    var caption: string
    /** `self.ws` and the sockets behind it. */
    var link: Link
    /** `self._countdown_job` and the ticks behind it. */
    var timer: Timer
    ghost var events: Trace

    /**
     * Every socket but the held one has been asked to close, and the only
     * countdown tick that can still run is the recorded one. (That the series
     * is sorted with unique keys, and the calendar sound, is carried by the
     * fields' types.)
     */
    ghost predicate Valid()
      reads this`link, this`timer
    {
      LinkOk(link) && TimerOk(timer)
    }

    /** The fields `__init__` sets before its first draw; the snapshot is already loaded. */
    constructor(draft: Draft, cal: SoundCalendar, symbol: string, interval: string, fetched: Fetch)
      requires WellFormed(fetched)
      ensures Valid()
      ensures this.draft == draft && this.cal == cal
      ensures this.symbol == Upper(symbol) && this.interval == interval && timeframe == "ALL"
      ensures df == LoadKlines(fetched) && view == NoData
      ensures link == NoLink && timer == NoTimer
      ensures events == Begin.Then(Requested(KlinesRequest(this.symbol, interval)))
    {
      this.draft := draft;
      this.cal := cal;
      var upper := Upper(symbol);
      this.symbol := upper;
      this.interval := interval;
      timeframe := "ALL";
      link := NoLink;
      timer := NoTimer;
      caption := "Close in 00:00";
      view := NoData;
      LoadedSorted(fetched);
      var loaded := LoadKlines(fetched);
      df := loaded;
      events := Begin.Then(Requested(KlinesRequest(upper, interval)));
    }

    /**
     * `__init__`: fetch, draw, open the stream, start the countdown.
     * test2.py's loader raises on a failed fetch, so there no chart is built.
     */
    static method Create(draft: Draft, cal: SoundCalendar, symbol: string, interval: string, fetched: Fetch, nowMicros: int)
      returns (c: Chart?)
      requires WellFormed(fetched)
      ensures c == null <==> draft == Test2Py && fetched.FetchFailed?
      ensures c != null ==> && fresh(c) && c.Valid() && c.draft == draft && c.cal == cal
                            && c.symbol == Upper(symbol) && c.interval == interval && c.timeframe == "ALL"
                            && c.df == LoadKlines(fetched) && c.view == Render(c.df, c.draft, c.timeframe, c.cal)
                            && c.link == Reopen(NoLink, KlineTopic(c.symbol, c.interval))
                            && c.timer == Schedule(NoTimer)
                            && c.caption == CountdownText(nowMicros, c.interval)
                            && c.events == Begin.Then(Requested(KlinesRequest(c.symbol, c.interval))).Then(Drawn)
                                                .Then(Opened(0, KlineTopic(c.symbol, c.interval))).Then(Scheduled(0))
    {
      if draft == Test2Py && fetched.FetchFailed? {
        c := null;
      } else {
        c := new Chart(draft, cal, symbol, interval, fetched);
        c.Launch(nowMicros);
      }
    }

    /** The end of `__init__`: draw, open the stream, start the countdown. */
    method Launch(nowMicros: int)
      requires Valid() && timer.pending == {}
      modifies this`view, this`link, this`timer, this`caption, this`events
      ensures Valid()
      ensures view == Render(df, draft, timeframe, cal)
      ensures link == Reopen(old(link), KlineTopic(symbol, interval))
      ensures timer == Schedule(old(timer))
      ensures caption == CountdownText(nowMicros, interval)
      ensures events == AfterClose(old(events).Then(Drawn), old(link).held)
                          .Then(Opened(old(link).next, KlineTopic(symbol, interval)))
                          .Then(Scheduled(old(timer).next))
    {
      DrawChart();
      GoLive(nowMicros);
    }

    /** Open the stream, then start the countdown. */
    method GoLive(nowMicros: int)
      requires Valid() && timer.pending == {}
      modifies this`link, this`timer, this`caption, this`events
      ensures Valid()
      ensures link == Reopen(old(link), KlineTopic(symbol, interval))
      ensures timer == Schedule(old(timer))
      ensures caption == CountdownText(nowMicros, interval)
      ensures events == AfterClose(old(events), old(link).held)
                          .Then(Opened(old(link).next, KlineTopic(symbol, interval)))
                          .Then(Scheduled(old(timer).next))
    {
      StartWs();
      UpdateCountdown(nowMicros);
    }

    /** `draw_chart`. */
    method DrawChart()
      modifies this`view, this`events
      ensures view == Render(df, draft, timeframe, cal)
      ensures events == old(events).Then(Drawn)
    {
      var v := Render(df, draft, timeframe, cal);
      view := v;
      events := events.Then(Drawn);
    }

    /** `stop_ws`: ask the held socket to close (a failing close is swallowed) and forget it. */
    method StopWs()
      requires Valid()
      modifies this`link, this`events
      ensures Valid()
      ensures link == Release(old(link))
      ensures events == AfterClose(old(events), old(link).held)
    {
      events := AfterClose(events, link.held);
      var released := Release(link);
      link := released;
    }

    /** `start_ws`: release the previous socket, then open and hold a new one on the current symbol and interval. */
    method StartWs()
      requires Valid()
      modifies this`link, this`events
      ensures Valid()
      ensures link == Reopen(old(link), KlineTopic(symbol, interval))
      ensures events == AfterClose(old(events), old(link).held).Then(Opened(old(link).next, KlineTopic(symbol, interval)))
    {
      StopWs();
      var topic := KlineTopic(symbol, interval);
      events := events.Then(Opened(link.next, topic));
      var reopened := Open(link, topic);
      link := reopened;
    }

    /** The stream callback: upsert the candle, keep the newest 1500 rows, redraw. */
    method OnMessage(msg: KlineMsg)
      modifies this`df, this`view, this`events
      ensures msg.Malformed? ==> df == old(df) && view == old(view) && events == old(events)
      ensures msg.Kline? ==> && df == Upsert(old(df), msg.candle)
                             && view == Render(df, draft, timeframe, cal)
                             && events == old(events).Then(Drawn)
    {
      match msg
      case Malformed =>
      case Kline(c) =>
        UpsertSorted(df, c);
        var updated := Upsert(df, c);
        df := updated;
        DrawChart();
    }

    /** `_update_countdown`: show the time to the next close and schedule the next tick. */
    method UpdateCountdown(nowMicros: int)
      requires Valid() && timer.pending == {}
      modifies this`caption, this`timer, this`events
      ensures Valid()
      ensures caption == CountdownText(nowMicros, interval)
      ensures timer == Schedule(old(timer)) && timer.pending == {old(timer).next}
      ensures events == old(events).Then(Scheduled(old(timer).next))
    {
      var text := CountdownText(nowMicros, interval);
      caption := text;
      events := events.Then(Scheduled(timer.next));
      var scheduled := Schedule(timer);
      timer := scheduled;
    }

    /** Tk runs a scheduled tick: it is the recorded job, and it reschedules itself. */
    method FireCountdown(job: Job, nowMicros: int)
      requires Valid() && job in timer.pending
      modifies this`caption, this`timer, this`events
      ensures Valid()
      ensures old(timer).recorded == Some(job)
      ensures caption == CountdownText(nowMicros, interval)
      ensures timer == Schedule(Fire(old(timer), job))
      ensures events == old(events).Then(Scheduled(old(timer).next))
    {
      FiredIsRecorded(timer, job);
      var fired := Fire(timer, job);
      timer := fired;
      UpdateCountdown(nowMicros);
    }

    /** `after_cancel` of the recorded job, when there is one. */
    method CancelCountdown()
      requires Valid()
      modifies this`timer, this`events
      ensures Valid()
      ensures timer == Cancel(old(timer))
      ensures events == AfterCancel(old(events), old(timer).recorded)
    {
      events := AfterCancel(events, timer.recorded);
      var cancelled := Cancel(timer);
      timer := cancelled;
    }

    /**
     * `refresh`: reload the snapshot, redraw, restart the stream, cancel the
     * pending tick and start a new one, in that order. In test2.py a failed
     * fetch raises out of the loader before anything but the request happens.
     */
    method Refresh(fetched: Fetch, nowMicros: int) returns (raised: bool)
      requires Valid() && WellFormed(fetched)
      modifies this`df, this`view, this`caption, this`link, this`timer, this`events
      ensures Valid()
      ensures raised <==> draft == Test2Py && fetched.FetchFailed?
      ensures raised ==> && df == old(df) && view == old(view) && caption == old(caption)
                         && link == old(link) && timer == old(timer)
                         && events == old(events).Then(Requested(KlinesRequest(symbol, interval)))
      ensures !raised ==> && df == LoadKlines(fetched) && view == Render(df, draft, timeframe, cal)
                          && link == Reopen(old(link), KlineTopic(symbol, interval))
                          && timer == Schedule(Cancel(old(timer)))
                          && caption == CountdownText(nowMicros, interval)
                          && events == RefreshEvents(old(events), KlinesRequest(symbol, interval), old(link), old(timer),
                                                     KlineTopic(symbol, interval))
    {
      events := events.Then(Requested(KlinesRequest(symbol, interval)));
      if draft == Test2Py && fetched.FetchFailed? {
        return true;
      }
      Reload(fetched);
      Restart(nowMicros);
      raised := false;
    }

    /** The first steps of `refresh` once a snapshot arrived: replace the series and redraw. */
    method Reload(fetched: Fetch)
      requires WellFormed(fetched)
      requires draft == ProjectPy || fetched.Fetched?
      modifies this`df, this`view, this`events
      ensures df == LoadKlines(fetched) && view == Render(df, draft, timeframe, cal)
      ensures events == old(events).Then(Drawn)
    {
      LoadedSorted(fetched);
      var loaded := LoadKlines(fetched);
      df := loaded;
      DrawChart();
    }

    /** The last steps of `refresh`: restart the stream, cancel the pending tick, start a new one. */
    method Restart(nowMicros: int)
      requires Valid()
      modifies this`link, this`timer, this`caption, this`events
      ensures Valid()
      ensures link == Reopen(old(link), KlineTopic(symbol, interval))
      ensures timer == Schedule(Cancel(old(timer)))
      ensures caption == CountdownText(nowMicros, interval)
      ensures events == AfterCancel(AfterClose(old(events), old(link).held).Then(Opened(old(link).next, KlineTopic(symbol, interval))),
                                    old(timer).recorded)
                          .Then(Scheduled(old(timer).next))
    {
      StartWs();
      CancelCountdown();
      UpdateCountdown(nowMicros);
    }

    /** `stop`: cancel the pending tick, then release the socket. */
    method Stop()
      requires Valid()
      modifies this`link, this`timer, this`events
      ensures Valid()
      ensures timer == Cancel(old(timer)) && link == Release(old(link))
      ensures events == AfterClose(AfterCancel(old(events), old(timer).recorded), old(link).held)
    {
      CancelCountdown();
      StopWs();
    }

    /** `change_range`'s part on the chart: select a range and redraw; nothing is fetched. */
    method SetTimeframe(tf: string)
      modifies this`timeframe, this`view, this`events
      ensures timeframe == tf && view == Render(df, draft, tf, cal)
      ensures events == old(events).Then(Drawn)
    {
      timeframe := tf;
      DrawChart();
    }
  }
}
