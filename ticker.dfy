/**
 * `CryptoTicker` of the ticker dashboard: a price card that streams one
 * `@ticker` feed while active, keeps the newest prices in a bounded buffer
 * (`deque(maxlen=max_points)`), and draws them as a sparkline coloured by
 * whether the newest price is at or above the oldest one kept.
 */
module Ticker {
  import opened Wrappers
  import opened Text
  import opened Trend
  import opened Quote
  import opened Retention
  import opened Lifecycle

  /** What `update_spark` sets on the line: its points, oldest first, and its colour. */
  datatype Spark = Spark(points: seq<real>, trend: Trend)

  class CryptoTicker {
    /** Stored lower-cased, as `__init__` does. */
    const symbol: string
    const displayName: string
    const maxPoints: nat
    var isActive: bool
    /** `self.ws` and the sockets behind it. */
    var link: Link
    /** The deque's contents, oldest first. */
    var prices: seq<real>
    /** Every price appended since the card was built. */
    ghost var arrived: seq<real>
    var display: Option<QuoteView>
    var spark: Option<Spark>

    /**
     * The card holds a socket exactly while it is active, no other socket is
     * left open, and the buffer is the newest `maxPoints` prices ever appended.
     */
    ghost predicate Valid()
      reads this`link, this`isActive, this`prices, this`arrived
    {
      && LinkOk(link)
      && (isActive <==> link.held.Some?)
      && prices == KeepLast(arrived, maxPoints)
    }

    /** `__init__`; `maxPoints` is the buffer bound, 200 in `__init__`'s signature when the caller gives none. */
    constructor(symbol: string, displayName: string, maxPoints: nat)
      ensures this.symbol == Lower(symbol) && this.displayName == displayName && this.maxPoints == maxPoints
      ensures !isActive && link == NoLink && prices == [] && arrived == []
      ensures display == None && spark == None
      ensures Valid()
    {
      this.symbol := Lower(symbol);
      this.displayName := displayName;
      this.maxPoints := maxPoints;
      isActive := false;
      link := NoLink;
      prices := [];
      arrived := [];
      display := None;
      spark := None;
    }

    /** `start`: nothing when already active; otherwise become active and hold one new socket. */
    method Start()
      requires Valid()
      modifies this`isActive, this`link
      ensures Valid()
      ensures old(isActive) ==> isActive && link == old(link)
      ensures !old(isActive) ==> && isActive && link == Open(old(link), TickerTopic(symbol))
                                 && Live(link) == {old(link).next}
    {
      if isActive {
        return;
      }
      isActive := true;
      var started := Open(link, TickerTopic(symbol));
      link := started;
    }

    /** `stop`: become inactive and close and forget the socket, if there is one; safe to repeat. */
    method Stop()
      requires Valid()
      modifies this`isActive, this`link
      ensures Valid()
      ensures !isActive && link == Release(old(link)) && Live(link) == {}
    {
      isActive := false;
      if link.held.Some? {
        var released := Release(link);
        link := released;
      }
    }

    /**
     * `on_message`: while active, append the frame's last price to the buffer
     * and have Tk refresh the labels and the sparkline. Inactive, or with a
     * frame that does not parse, nothing changes.
     */
    method OnMessage(msg: TickerMsg)
      requires Valid()
      modifies this`prices, this`arrived, this`display, this`spark
      ensures Valid()
      ensures !isActive || msg.Malformed? ==> && prices == old(prices) && arrived == old(arrived)
                                              && display == old(display) && spark == old(spark)
      ensures isActive && msg.Ticker? ==> && arrived == old(arrived) + [msg.last]
                                          && prices == KeepLast(old(prices) + [msg.last], maxPoints)
                                          && display == Some(QuoteOf(TickerPalette, msg.last, msg.change, msg.percent))
                                          && (maxPoints > 0 ==> spark == Some(Spark(prices, Between(prices[0], msg.last))))
                                          && (maxPoints == 0 ==> spark == old(spark))
    {
      if !isActive {
        return;
      }
      match msg
      case Malformed =>
      case Ticker(price, change, percent) =>
        Accept(price, change, percent);
    }

    /** The active path of `on_message` for a frame that parses. */
    method Accept(price: real, change: real, percent: real)
      requires Valid()
      modifies this`prices, this`arrived, this`display, this`spark
      ensures Valid()
      ensures arrived == old(arrived) + [price]
      ensures prices == KeepLast(old(prices) + [price], maxPoints)
      ensures display == Some(QuoteOf(TickerPalette, price, change, percent))
      ensures maxPoints > 0 ==> spark == Some(Spark(prices, Between(prices[0], price)))
      ensures maxPoints == 0 ==> spark == old(spark)
    {
      Record(price);
      UpdateDisplay(price, change, percent);
      UpdateSpark();
    }

    /** `self.prices.append(price)` on the bounded deque. */
    method Record(price: real)
      requires Valid()
      modifies this`prices, this`arrived
      ensures Valid()
      ensures arrived == old(arrived) + [price]
      ensures prices == KeepLast(old(prices) + [price], maxPoints)
      ensures maxPoints > 0 ==> |prices| > 0 && prices[|prices| - 1] == price
    {
      KeepLastAppend(arrived, price, maxPoints);
      var kept := KeepLast(prices + [price], maxPoints);
      prices := kept;
      arrived := arrived + [price];
    }

    /** `update_display`: the labels' text and colour for one frame. */
    method UpdateDisplay(price: real, change: real, percent: real)
      modifies this`display
      ensures display == Some(QuoteOf(TickerPalette, price, change, percent))
    {
      display := Some(QuoteOf(TickerPalette, price, change, percent));
    }

    /** `update_spark`: an empty buffer leaves the line as it was; otherwise it shows the buffer, green when the newest price is not below the oldest. */
    method UpdateSpark()
      modifies this`spark
      ensures |prices| == 0 ==> spark == old(spark)
      ensures |prices| > 0 ==> && spark.Some? && spark.value.points == prices
                               && (spark.value.trend == Up <==> prices[|prices| - 1] >= prices[0])
    {
      if |prices| == 0 {
        return;
      }
      spark := Some(Spark(prices, Between(prices[0], prices[|prices| - 1])));
    }
  }
}
