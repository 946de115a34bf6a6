/**
 * `LivePrice`: one `@ticker` stream feeding a price card, silenced for good
 * by a stop flag. Socket handles are opaque numbers; the transport is not
 * modelled, only which handles were opened and which were asked to close.
 */
module PriceFeed {
  import opened Wrappers
  import opened Text
  import opened Trend
  import opened Quote
  import opened Lifecycle

  class LivePrice {
    /** Stored lower-cased, as `__init__` does. */
    const symbol: string
    var stopFlag: bool
    /** `self.ws` and the sockets behind it. */
    var link: Link
    /** The text last scheduled onto the two labels. */
    var shown: Option<QuoteView>

    ghost predicate Valid()
      reads this`link
    {
      LinkOk(link)
    }

    /** `__init__`; the thread it starts runs `Run`, modelled as a separate step. */
    constructor(symbol: string)
      ensures this.symbol == Lower(symbol)
      ensures !stopFlag && link == NoLink && shown == None
      ensures Valid()
    {
      this.symbol := Lower(symbol);
      stopFlag := false;
      link := NoLink;
      shown := None;
    }

    /** `run`: open the ticker stream and keep it in `ws`. */
    method Run()
      requires Valid() && Live(link) == {}
      modifies this`link
      ensures Valid()
      ensures link == Open(old(link), TickerTopic(symbol))
      ensures Live(link) == {old(link).next}
    {
      var started := Open(link, TickerTopic(symbol));
      link := started;
    }

    /** `on_msg`: after `stop` nothing changes; a frame that does not parse raises inside the callback and changes nothing either. */
    method OnMsg(msg: TickerMsg)
      modifies this`shown
      ensures stopFlag || msg.Malformed? ==> shown == old(shown)
      ensures !stopFlag && msg.Ticker? ==> shown == Some(QuoteOf(QuotePalette, msg.last, msg.change, msg.percent))
    {
      if stopFlag {
        return;
      }
      match msg
      case Malformed =>
      case Ticker(c, p, pct) =>
        shown := Some(QuoteOf(QuotePalette, c, p, pct));
    }

    /**
     * `stop`: raise the flag and ask the held socket, if any, to close. `ws`
     * itself is left in place, so a second call asks the same socket again
     * and changes nothing further.
     */
    method Stop()
      requires Valid()
      modifies this`stopFlag, this`link
      ensures Valid()
      ensures stopFlag && link == Close(old(link))
      ensures Live(link) == {}
    {
      stopFlag := true;
      var closed := Close(link);
      link := closed;
    }
  }

  /**
   * `stop` reaching the card before its thread has run `run`: the flag is
   * raised but there is no socket to close yet, so the socket `run` opens
   * afterwards stays live until `stop` is called again.
   */
  method StopBeforeRun(symbol: string) returns (p: LivePrice)
    ensures fresh(p) && p.stopFlag
    ensures Live(p.link) == {0} && p.link.streams[0] == TickerTopic(p.symbol)
  {
    p := new LivePrice(symbol);
    p.Stop();
    p.Run();
  }
}
