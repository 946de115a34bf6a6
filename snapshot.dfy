/**
 * `load_klines`: the one-shot history fetch and its projection onto the five
 * price columns keyed by open time. The HTTP call itself is outside the model;
 * its outcome arrives as a `Fetch` value.
 */
module Snapshot {
  import opened Wrappers
  import opened Text
  import opened Candles

  /** One element of the exchange's klines reply, with its twelve columns. */
  datatype RawKline = RawKline(
    openTime: int, open: real, high: real, low: real, close: real, volume: real,
    closeTime: int, quoteVolume: real, trades: int, takerBase: real, takerQuote: real, ignore: real)

  /** What the request returned: rows of twelve numeric columns, or a failure of the request or its JSON decoding (network, timeout, non-2xx status, bad JSON). */
  datatype Fetch = Fetched(rows: seq<RawKline>) | FetchFailed

  /** The query parameters `load_klines` sends. */
  datatype Request = Request(symbol: string, interval: string, limit: nat)

  /** `limit=800` is the default every chart uses. */
  const Limit: nat := 800

  function KlinesRequest(symbol: string, interval: string): (q: Request)
    ensures q.symbol == Upper(symbol) && q.interval == interval && q.limit == 800
  {
    Request(Upper(symbol), interval, Limit)
  }

  /** The request does not depend on how the caller cased the symbol, so project.py's un-normalised `change_symbol` fetches the same klines. */
  lemma RequestIgnoresCase(symbol: string, interval: string)
    ensures KlinesRequest(Lower(symbol), interval) == KlinesRequest(symbol, interval)
  {
    UpperOfLower(symbol);
  }

  /** The exchange lists klines oldest first, one per open time. */
  ghost predicate WellFormed(f: Fetch)
  {
    f.Fetched? ==> forall i, j :: 0 <= i < j < |f.rows| ==> f.rows[i].openTime < f.rows[j].openTime
  }

  /** `df[["open","high","low","close","volume"]]` indexed by `open_time`, one row per kline in fetch order. */
  function Project(rows: seq<RawKline>): (r: Series)
    ensures |r| == |rows|
    ensures forall i :: 0 <= i < |rows| ==>
      var k := rows[i];
      r[i] == Candle(k.openTime, k.open, k.high, k.low, k.close, k.volume)
  {
    if |rows| == 0 then []
    else
      var k := rows[0];
      [Candle(k.openTime, k.open, k.high, k.low, k.close, k.volume)] + Project(rows[1..])
  }

  /**
   * project.py's `load_klines`: a failure of the request or of its JSON
   * decoding is caught and gives an empty frame with the five columns; otherwise every kline, in fetch order, keyed by
   * its open time.
   */
  function LoadKlines(f: Fetch): (r: Series)
    ensures f.FetchFailed? ==> r == []
    ensures f.Fetched? ==> |r| == |f.rows|
    ensures f.Fetched? ==> forall i :: 0 <= i < |f.rows| ==>
      (r[i].time == f.rows[i].openTime && r[i].close == f.rows[i].close)
  {
    match f
    case FetchFailed => []
    case Fetched(rows) => Project(rows)
  }

  /** test2.py's `load_klines` has no handler: a failure propagates to the caller as an exception (`None`). */
  function LoadKlinesStrict(f: Fetch): (r: Option<Series>)
    ensures r.None? <==> f.FetchFailed?
    ensures r.Some? ==> r.value == LoadKlines(f)
  {
    match f
    case FetchFailed => None
    case Fetched(rows) => Some(Project(rows))
  }

  /** A well-formed reply, or a failed one, loads as a strictly sorted series. */
  lemma LoadedSorted(f: Fetch)
    requires WellFormed(f)
    ensures StrictlySorted(LoadKlines(f))
  {
  }

}
