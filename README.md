# Atlas crypto dashboards: a verified model of their bookkeeping

The repository holds three drafts of a desktop crypto dashboard built on Tk:

- `test2.py`: a paged "Atlas" window with Overview, Orders and Settings pages.
- `project.py`: a single-page Atlas window.
- `test.py`: a ticker dashboard with candle charts and sparkline cards.

The drafts draw exchange data, but under the widgets each keeps a small amount of ordinary state:

- a series of candles keyed by open time, which a kline stream upserts into and trims to the newest 1500 rows;
- a range filter over that series, anchored on its newest key;
- an interval table and a "Close in mm:ss" countdown computed by integer arithmetic;
- which websocket each owner holds, which sockets were asked to close, and which Tk `after` job the countdown recorded;
- a stop flag on the live price cards, and an active flag and bounded price buffer on the ticker cards;
- up/down colours for line segments, volume bars, candles and sparklines;
- the order form's validation.

That state is what this project models.

Modules, one concept each:

| module | models |
|---|---|
| `Wrappers` | `Option` |
| `Text` | `strip`, ASCII `upper`/`lower`, decimal digits |
| `Trend` | up/down classification |
| `Retention` | `iloc[-n:]` and `deque(maxlen=n)` |
| `Candles` | the series, the `df.loc[ts] = row; sort_index().iloc[-1500:]` upsert, and its reference definition |
| `Snapshot` | `load_klines` |
| `RangeWindow` | `_apply_timeframe` |
| `Countdown` | `_get_tf_seconds`, `_update_countdown` |
| `ChartView` | what `draw_chart` plots |
| `Quote` | a ticker frame and its label text |
| `Lifecycle` | sockets and countdown jobs as values |
| `LineChart` | class `Chart` = `TVLineChart` of both Atlas drafts |
| `PriceFeed` | class `LivePrice` |
| `Ticker` | class `CryptoTicker` |
| `CandlePlot` | `CandleChart._draw` |
| `Orders` | `OrdersPage.submit` |
| `Dashboard` | the two `AtlasDashboard` windows |

The model abstracts the outside world like this:

- **Sockets and `after` jobs** are opaque numbers. A `Link` records the handle held in `ws`, every socket opened with its stream path, and the set asked to close. A `Timer` records `_countdown_job` and the ticks still pending. The chart also keeps a ghost `events` trace: requests, redraws, closes, opens, schedules and cancels, in order.
- **The HTTP fetch** arrives as a `Fetch` value: the decoded rows, or a failure.
- **The clock** arrives as integer microseconds since the Unix epoch.
- **pandas' month and year offsets** are a `Calendar` value. All that is assumed of it is that stepping back never moves forward (`Sound`).

## Model

| member | source | states |
|---|---|---|
| Candles.IndexOf | test2.py:294 | the first row with key `t` if any, else no row has that key |
| Candles.LocSet | test2.py:294 | `df.loc[ts] = row` overwrites the row at an existing key in place, otherwise appends |
| Candles.Insert | test2.py:295 | insertion adds exactly the new row to the multiset of rows |
| Candles.SortByKey | test2.py:295 | `sort_index()` is a permutation of the rows |
| Candles.SortByKeySorts | test2.py:295 | `sort_index()` yields keys in non-decreasing order, as a permutation |
| Candles.InsertKeepsOrder | test2.py:295 | inserting into a key-ordered series keeps it key-ordered |
| Candles.SortSorted | test2.py:228 | re-sorting a strictly sorted series changes nothing |
| Candles.Upsert | test2.py:290-296 | the stream update never holds more than 1500 rows |
| Candles.FiltersSorted | test2.py:295 | the rows older and newer than a key stay strictly sorted |
| Candles.MergedSorted | test2.py:295 | older rows, the new row, newer rows is strictly sorted |
| Candles.InsertMerges | test2.py:294-295 | appending a new key and sorting equals the reference placement |
| Candles.OverwriteMerges | test2.py:294-295 | overwriting an existing key equals the reference placement |
| Candles.SortedLocSetIsMerged | test2.py:294-295 | on a sorted series, set-then-sort equals the reference placement; it is one row longer exactly when the key was new, and otherwise is the old series with that row replaced |
| Candles.UpsertIsTrimmedMerge | project.py:236-237 | the whole stream update is the newest 1500 rows of the reference placement |
| Candles.MergedPosition | test2.py:294 | the new row sits right after the older rows, and no other row has its key |
| Candles.UpsertSorted | test2.py:295 | keys stay strictly increasing, with no duplicates |
| Candles.UpsertLength | test2.py:295 | the new length is min(1500, old length + 1 if the key was new, else + 0) |
| Candles.UpsertOverwrites | test2.py:294-295 | upserting an existing key into a series within the cap replaces that row and keeps the length |
| Candles.UpsertIntoEmpty | project.py:236-237 | an upsert into an empty series gives the one-row series |
| Candles.UpsertKeepsNewest | test2.py:295 | the rows kept are a suffix of the placement, and every dropped row is older than every kept one |
| Candles.UpsertStoresIff | test2.py:294-295 | the new row is kept iff fewer than 1500 rows are newer than it; a kept row with its key is the new row |
| Candles.UpsertNewestLast | test2.py:290-296 | an update at or after the newest key always lands as the last row |
| Candles.UpsertRows | test2.py:294 | every row afterwards is the new row or an old row with another key |
| Candles.UpsertAllSorted | project.py:225-238 | across any stream of updates, keys stay strictly increasing and the cap holds |
| Snapshot.KlinesRequest | test2.py:44 | the request sends the upper-cased symbol, the interval and limit 800 |
| Snapshot.RequestIgnoresCase | project.py:17 | the request is the same whatever the case of the symbol passed in |
| Snapshot.Project | project.py:29-39 | each raw row maps, in order, to its open time and five price fields; the other six columns are dropped |
| Snapshot.LoadKlines | project.py:20-39 | a failed fetch gives the empty series; a success gives one row per raw row, keyed by open time |
| Snapshot.LoadKlinesStrict | test2.py:47-61 | `test2.py`'s loader fails exactly when the fetch fails, and otherwise agrees with the projection |
| Snapshot.LoadedSorted | test2.py:59-61 | rows listed oldest first, one per open time, load as a strictly sorted series |
| RangeWindow.MaxKey | test2.py:183 | `index.max()` bounds every key and is one of them |
| RangeWindow.WindowStart | test2.py:185-202 | only the seven windowed tags have a start; 5D starts five days before the newest key; on a sound calendar no start is after it |
| RangeWindow.SinceMembers | test2.py:204 | the filter keeps exactly the rows keyed at or after `start` |
| RangeWindow.Select | test2.py:179-204 | empty in gives empty out; ALL or an unknown tag returns the series; no row is invented |
| RangeWindow.SinceAll | test2.py:204 | when every key is in the window, the filter returns the series |
| RangeWindow.SinceSuffix | test2.py:204 | on an ordered series the filter is a suffix: everything before it is older than the start, everything in it is not |
| RangeWindow.MaxKeyIsLast | test2.py:183 | on an ordered series the anchor is the last row's key |
| RangeWindow.SelectWindow | test2.py:183-204 | for a windowed tag the result is the suffix split at the start computed from the newest key |
| RangeWindow.SelectKeepsNewest | test2.py:179-204 | for any tag, a non-empty ordered series gives a non-empty ordered window ending with the newest row |
| Countdown.TfSeconds | test2.py:165-171 | every result is a positive whole number of minutes; a tag outside the 14 gives 1800 |
| Countdown.TableKeys | test2.py:166-170 | the table's keys are exactly the 14 tags |
| Countdown.TagSpellsItsSeconds | test2.py:166-170 | each tag is a count and a unit letter, and its entry is count × unit seconds |
| Countdown.TableMatchesSpelling | project.py:131-137 | every entry of the table is the duration its tag spells |
| Countdown.TruncDiv | test2.py:320 | Python's `int()` of a quotient truncates toward zero |
| Countdown.NextCloseIsNextBoundary | test2.py:319 | the next close is a multiple of tf strictly after the whole-second time and at most tf after it |
| Countdown.RemainingBounds | test2.py:320 | the remainder is between 0 and tf |
| Countdown.RemainingOnWholeSecond | test2.py:319-320 | on a whole second the remainder is next close − now, and at least 1 |
| Countdown.RemainingClosedForm | test2.py:319-320 | on a whole second after the epoch the remainder is tf − (now mod tf) |
| Countdown.Split | test2.py:322-323 | mm·60 + ss is the remainder, and ss < 60 |
| Countdown.Label | test2.py:324 | the caption starts "Close in " |
| Countdown.LabelReadsBack | test2.py:322-324 | the minutes and seconds printed in the caption read back to the remainder |
| Countdown.NaiveStamp | project.py:260 | with a zero UTC offset the naive stamp is the true time |
| Countdown.NaiveCountdownIsShifted | project.py:260-262 | at UTC+7 a 4h countdown at the epoch shows 3 hours instead of 4 |
| Text.StripLeft | test2.py:530 | only leading whitespace is removed, and the result does not start with whitespace |
| Text.StripRight | test2.py:530 | only trailing whitespace is removed, and the result does not end with whitespace |
| Text.StripBlankIff | test2.py:531 | a stripped string is empty iff every character is whitespace |
| Text.StripIsTrimmedPiece | test2.py:530 | `strip()` is a contiguous piece of the input with no whitespace at either end |
| Text.Upper | test2.py:122 | character-wise ASCII upper-casing, same length |
| Text.Lower | test2.py:70 | character-wise ASCII lower-casing, same length |
| Text.LowerOfUpper | test2.py:288 | lower-casing the upper-cased symbol gives the lower-cased symbol |
| Text.UpperOfLower | test2.py:44 | upper-casing the lower-cased symbol gives the upper-cased symbol |
| Text.Decimal | test2.py:324 | a decimal numeral is all digits and one digit long exactly below 10 |
| Text.DecimalRoundTrip | test2.py:324 | reading back a printed number gives the number |
| Text.TwoDigits | test2.py:324 | `:02d` gives at least two digits, and the plain numeral from 10 on |
| Text.TwoDigitsRoundTrip | test2.py:324 | reading back a `:02d` numeral gives the number |
| Retention.KeepLast | test.py:180 | at most n elements are kept, and they are the input's last ones |
| Retention.KeepLastAppend | test.py:239 | appending to a bounded buffer, then trimming, equals trimming the whole history |
| ChartView.SegmentTrends | project.py:164-171 | one colour per pair of neighbouring rows, up iff the later close is not lower |
| ChartView.BarTrends | project.py:203-204 | one colour per row, up iff close ≥ open |
| ChartView.SelectNonEmpty | test2.py:183-204 | any range window of a non-empty series is non-empty |
| ChartView.Render | test2.py:223-228 | "No chart data" exactly on an empty series |
| ChartView.RenderPlots | test2.py:228-273 | a non-empty series is plotted from the selected, sorted frame: its segments, its bars and its last row |
| ChartView.RenderShowsNewest | test2.py:245-263 | on a sorted series the last-price line and OHLC text show the newest row, whatever the range |
| ChartView.ShownIsSelection | test2.py:228 | on a sorted series project.py plots the whole series and test2.py the range selection; `sort_index()` changes neither |
| ChartView.SelectSorted | test2.py:204 | a range of a strictly sorted series is strictly sorted |
| ChartView.RenderWholeSeries | project.py:161-206 | `project.py` colours every segment and bar of the whole series |
| ChartView.TrendsOfSuffix | test2.py:231-232 | a window's colours are the tail of the whole series' colours |
| ChartView.RangeColoursAreSuffix | test2.py:228-273 | with a range selected, the colours shown are the full chart's colours from the first row inside the window |
| Quote.QuoteOf | test2.py:91-92 | a ticker frame shows its price, change and percent, with "+" and the up colour iff change ≥ 0 |
| Quote.SignAgreesWithColour | project.py:74-75 | the sign is "+" iff change ≥ 0, iff the colour is green |
| Lifecycle.Open | test2.py:298-305 | a new socket gets a fresh handle on the given path and is held; from no live socket, exactly it is live |
| Lifecycle.Close | test2.py:102-107 | the held socket, if any, is asked to close and kept referenced; nothing stays live |
| Lifecycle.Release | test2.py:307-312 | `stop_ws` closes the held socket, if any, and clears `ws` whatever close does |
| Lifecycle.Reopen | test2.py:286-305 | `start_ws` closes the previous socket first, so only the new one is live |
| Lifecycle.ReleaseIdempotent | test2.py:307-312 | a second `stop_ws` changes nothing |
| Lifecycle.CloseIdempotent | project.py:85-89 | a second `LivePrice.stop` changes nothing |
| Lifecycle.ReopenLeavesOne | test2.py:286-287 | after `start_ws`, a socket is live iff it is the one just opened |
| Lifecycle.CloseBeforeOpenLeaks | test2.py:102-107 | a close while no socket is held changes nothing, so a socket opened afterwards stays live |
| Lifecycle.Schedule | test2.py:326 | `after(1000, …)` gets a fresh id, which is recorded and pending |
| Lifecycle.Cancel | test2.py:333-335 | `after_cancel` withdraws only the recorded job, and the field keeps the stale id; on a well-formed timer no tick stays pending |
| Lifecycle.Fire | test2.py:326 | a tick that runs is no longer pending |
| Lifecycle.FiredIsRecorded | test2.py:326-336 | a tick Tk can run is always the recorded one |
| LineChart.Chart.constructor | test2.py:113-157 | fields as `__init__` sets them: upper-cased symbol, "ALL" range, the loaded series, no socket, no job |
| LineChart.Chart.Create | test2.py:113-162 | construction fails iff `test2.py`'s load fails; otherwise the full state after load, draw, `start_ws` and the first countdown |
| LineChart.Chart.Launch | test2.py:158-162 | draw, then go live |
| LineChart.Chart.GoLive | test2.py:161-162 | `start_ws`, then the first countdown tick |
| LineChart.Chart.DrawChart | test2.py:207-282 | the view is the render of the current series and range |
| LineChart.Chart.StopWs | test2.py:307-312 | the held socket is released and its close recorded |
| LineChart.Chart.StartWs | test2.py:286-305 | release, then open on `symbol.lower()@kline_interval` |
| LineChart.Chart.OnMessage | test2.py:290-296 | a kline frame upserts its candle and redraws; a malformed one changes nothing |
| LineChart.Chart.UpdateCountdown | test2.py:315-326 | the caption shows the remainder for the interval, and one tick is scheduled |
| LineChart.Chart.FireCountdown | test2.py:315-326 | a running tick is the recorded one and schedules the next |
| LineChart.Chart.CancelCountdown | test2.py:333-335 | the recorded job, if any, is cancelled |
| LineChart.Chart.Refresh | test2.py:328-336 | a `test2.py` load failure raises with only the request made; otherwise load, draw, restart the stream, cancel, then reschedule, in that order |
| LineChart.Chart.Reload | test2.py:329-330 | the series is replaced by the new snapshot and redrawn |
| LineChart.Chart.Restart | test2.py:331-336 | `start_ws`, cancel the recorded job, then schedule a new tick |
| LineChart.Chart.Stop | test2.py:338-343 | the countdown is cancelled, then the socket released |
| LineChart.Chart.SetTimeframe | test2.py:655-659 | the range is set and the chart redrawn |
| PriceFeed.LivePrice.constructor | test2.py:67-72 | lower-cased symbol, no socket, not stopped |
| PriceFeed.LivePrice.Run | test2.py:75-83 | opens and holds the one `@ticker` socket |
| PriceFeed.LivePrice.OnMsg | test2.py:85-100 | after stop, or on a malformed frame, the card is unchanged; otherwise it shows the frame's quote |
| PriceFeed.LivePrice.Stop | test2.py:102-107 | sets the flag and asks the held socket to close |
| PriceFeed.StopBeforeRun | test2.py:66-107 | a `stop` that runs before the thread's `run` leaves the flag set and the `@ticker` socket `run` then opens live |
| Ticker.CryptoTicker.constructor | test.py:172-180 | lower-cased symbol, inactive, empty buffer |
| Ticker.CryptoTicker.Start | test.py:204-224 | no-op when active; otherwise active with one new socket live |
| Ticker.CryptoTicker.Stop | test.py:226-231 | inactive, `ws` cleared, no socket live |
| Ticker.CryptoTicker.OnMessage | test.py:233-243 | inactive or malformed changes nothing; otherwise the price is appended, the buffer is the newest `max_points`, and the display and sparkline follow |
| Ticker.CryptoTicker.Accept | test.py:239-243 | append, then show the quote and the sparkline coloured by last ≥ first |
| Ticker.CryptoTicker.Record | test.py:239 | the buffer becomes the newest `max_points` of all prices so far, ending with this one |
| Ticker.CryptoTicker.UpdateDisplay | test.py:245-250 | the card shows the frame's quote |
| Ticker.CryptoTicker.UpdateSpark | test.py:252-263 | an empty buffer changes nothing; otherwise the line is the buffer, up iff last ≥ first |
| CandlePlot.MarkOf | test.py:125-143 | wick low to high; up iff close ≥ open; base is min(open, close); the body covers both prices and is at least 2% of the range tall |
| CandlePlot.BodyWithinWick | test.py:136-140 | for a consistent candle the base lies in the wick, and an unstretched body ends at max(open, close) |
| CandlePlot.CandleChart.constructor | test.py:74-86 | no marks yet |
| CandlePlot.CandleChart.Draw | test.py:106-143 | an empty reply leaves the plot; otherwise mark i is candle i's mark |
| Orders.SubmitAsWritten | test2.py:528-560 | success iff the quantity is non-blank and a Limit order has a non-blank price |
| Orders.Submit | test2.py:528-560 | the same outcome, with the corrected Limit line |
| Orders.QuantityRequired | test2.py:530-537 | the quantity error appears iff the stripped quantity is empty |
| Orders.LimitPriceRequired | test2.py:540-549 | with a quantity, the price error appears iff a Limit order has a blank price |
| Orders.SuccessMessage | test2.py:551-560 | the success message names the side, the stripped quantity and, on a Limit order, the stripped price |
| Orders.QuantityNotNumeric | test2.py:530-531 | a non-numeric quantity such as "abc" is accepted |
| Orders.WidgetNameShown | test2.py:553-554 | the code as written and the corrected one differ exactly on successful Limit orders whose entry's name is not the price |
| Orders.WidgetNameExample | test2.py:554 | a concrete Limit order whose message as written lacks the price |
| Dashboard.TfButtonsKnown | test2.py:384 | every interval button of both drafts names a known interval |
| Dashboard.RangeTagAsInterval | test2.py:399-410 | a range tag used as an interval is unknown and falls back to 1800 |
| Dashboard.PagedDashboard.constructor | test2.py:606-627 | the window opens on Overview |
| Dashboard.PagedDashboard.Show | test2.py:648-652 | the named page becomes current |
| Dashboard.PagedDashboard.ChangeRange | test2.py:655-659 | on Overview, set the range and redraw; elsewhere nothing |
| Dashboard.PagedDashboard.ChangeTf | test2.py:660-665 | off Overview the chart is untouched; on Overview the interval is set and the chart refreshed: a failed load raises with only the request made, otherwise the new series is drawn, the stream reopened, the countdown cancelled and rescheduled, in that order |
| Dashboard.PagedDashboard.ChangeSymbol | test2.py:667-673 | off Overview the chart is untouched; on Overview the stream is released, the symbol upper-cased and the chart refreshed: a failed load leaves the stream released and nothing else changed, otherwise the new series is drawn, the stream reopened on the new symbol, the countdown cancelled and rescheduled, in that order |
| Dashboard.PagedDashboard.RangeButtonAsWired | test2.py:399-410 | a range button changes the interval to the tag, so its countdown uses 1800 s, and the range is untouched |
| Dashboard.PagedDashboard.RangeButton | test2.py:655-659 | a range button wired to `change_range` sets the range and leaves interval and stream alone |
| Dashboard.PagedDashboard.CloseAll | test2.py:714-718 | while Overview is shown, cancels the countdown and then releases the socket, in that order; otherwise the chart is untouched; the live cards are never stopped |
| Dashboard.PlainDashboard.constructor | project.py:343-348 | the window holds one chart and two distinct live cards |
| Dashboard.PlainDashboard.ChangeTf | project.py:362-364 | set the interval and refresh; with a failed request caught by the loader, the new series is drawn, the stream reopened, the countdown cancelled and rescheduled, in that order |
| Dashboard.PlainDashboard.ChangeSymbol | project.py:366-368 | the symbol is taken as given, and the refresh draws the new series, reopens the stream on it, and cancels and reschedules the countdown, in that order |
| Dashboard.PlainDashboard.CloseAll | project.py:370-374 | both live cards are flagged and their sockets closed, then the chart's countdown is cancelled and its socket released, in that order |

## Left out

- Transport: HTTP fetches and websocket transport are outside the model. A fetch is a `Fetch` value, a frame is a message value, and JSON decoding is folded into the `Malformed` case.
- Threads and races: these are not modelled.
  - Each callback runs as one atomic step.
  - `after(0, …)` hand-offs are applied at once.
  - A late kline frame racing `refresh` is not represented.
  - `ws_thread` is not kept apart from `ws`.
- PriceFeed.LivePrice.Run: requires that no socket is live yet, because `run` starts once, on its own thread, from the constructor. A `stop` before `run` meets that requirement and is modelled (`StopBeforeRun`): the socket `run` then opens stays live with the flag set. Only the thread timing that lets this happen is left out.
- Drawing and widgets: matplotlib and Tk work beyond what is plotted (axes, formatting, themes, appearance mode, page packing) is not modelled. So are `_refresh_btn`, `_refresh_price_state` and the Settings page.
- Floating point: `_volume_width`, `ema`, y-limit padding, sparkline widening, `_recalc_total` and thousands-separator formatting are not modelled. Prices are exact reals.
- pandas' calendar offsets: `DateOffset(months=…)`, `DateOffset(years=…)` and the YTD start are abstract. Only that they do not move forward is assumed.
- Character handling: `upper` and `lower` map ASCII letters only. `strip` uses Python's full whitespace set.
- The clock: it is a parameter, in microseconds since the epoch, so that `int(next_close_ts - now.timestamp())` can be modelled exactly.
- DataFrame columns: a series is a sequence of candles, so the column names of the empty frame that project.py returns on failure are not represented.
- Candles.LocSet: on a frame with duplicate keys, pandas overwrites every matching row and may reorder equal keys when sorting. `LocSet` overwrites only the first match, and `SortByKey` is stable. Only a snapshot that breaks `WellFormed` can hold duplicate keys.
- Snapshot.LoadKlines: a `Fetched` reply is assumed to hold rows of twelve numeric columns. In project.py, building the frame and the `astype(float)` casts (project.py:29-35) run outside its `try`. A reply of the wrong shape or with a non-numeric price raises out of `load_klines`, and so out of `refresh` and `change_tf`. That raising path is not modelled, nor the same one in test2.py's loader.
- Snapshot order: the exchange is assumed to list rows oldest first, one per open time (`WellFormed`). `sort_index` on an unordered snapshot is modelled, but the proofs about it use this assumption.
- Interval tags: the table in both drafts has 14 tags, including 3m, 2h, 6h, 8h, 12h and 3d, and the model follows the code.
- Page switching: `test2.py`'s `close_all` never stops the live price cards, and the model keeps that as written.
- test.py refetching: `CandleChart`'s 5-second refetch timer, `ModernDashboard`'s chart rebuilding on symbol or interval change, and `on_closing` are not modelled.
- LineChart.Chart.UpdateCountdown: requires no tick to be pending. Tk runs only the recorded tick, which `FireCountdown` models; a second concurrent chain is not modelled. `Launch` and `GoLive` require the same.
- LineChart.Chart.Reload: requires a successful fetch on test2.py, whose loader raises before anything changes. That raising path is modelled by `Refresh`.
- Ticker.CryptoTicker.OnMessage: the sparkline's axis limits are not modelled; only its points and colour are.

## Findings

| source | as written | input that shows it | evidently intended | confidence | as-written member | corrected member |
|---|---|---|---|---|---|---|
| test2.py:399-410 | the range buttons' command calls `app.change_tf(t)` | pressing "1M": the interval becomes "1M", which is not in the table, so the countdown runs on 1800 s; the range stays "ALL" and the stream reopens on `@kline_1M` | call `change_range(t)`, which the code defines for exactly this | not executed | Dashboard.PagedDashboard.RangeButtonAsWired | Dashboard.PagedDashboard.RangeButton |
| test2.py:554 | the Limit success line formats `self.price`, the entry widget | side BUY, Limit, quantity "1", price "100": the message ends with the widget's name, not "Price: 100" | format the stripped `price` just validated | not executed | Orders.WidgetNameExample | Orders.SuccessMessage |
| project.py:260 | the countdown takes `utcnow()`, a naive datetime, and calls `.timestamp()` on it, which reads it as local time | on a UTC+7 machine at 00:00 UTC, a 4h candle reads "Close in 180:00" instead of "Close in 240:00" | an aware UTC time, as test2.py:318 uses | not executed | Countdown.NaiveCountdownIsShifted | Countdown.RemainingClosedForm |
