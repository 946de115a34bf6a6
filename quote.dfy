/**
 * The 24-hour ticker card shared by `LivePrice.on_msg` and
 * `CryptoTicker.update_display`: last price, change and percentage, painted
 * green with a `+` sign when the change is not negative, red and unsigned
 * otherwise.
 */
module Quote {
  import opened Trend

  /** A decoded `@ticker` frame (`c`, `p`, `P`), or one whose JSON or fields do not parse. */
  datatype TickerMsg = Ticker(last: real, change: real, percent: real) | Malformed

  /** The stream path both `LivePrice.run` and `CryptoTicker.start` connect to, for an already lower-cased symbol. */
  function TickerTopic(symbol: string): string
  {
    symbol + "@ticker"
  }

  datatype QuoteView = QuoteView(price: real, change: real, percent: real, colour: string, sign: string)

  function QuoteOf(p: Palette, price: real, change: real, percent: real): (q: QuoteView)
    ensures q.price == price && q.change == change && q.percent == percent
    ensures change >= 0.0 ==> q.colour == p.up && q.sign == "+"
    ensures change < 0.0 ==> q.colour == p.down && q.sign == ""
  {
    var t := Between(0.0, change);
    QuoteView(price, change, percent, Colour(p, t), if t == Up then "+" else "")
  }

  /** With distinct colours, the sign, the colour and the direction of the change always agree. */
  lemma SignAgreesWithColour(p: Palette, price: real, change: real, percent: real)
    requires p.up != p.down
    ensures var q := QuoteOf(p, price, change, percent);
      && (q.sign == "+" <==> change >= 0.0)
      && (q.colour == p.up <==> q.sign == "+")
  {
  }
}
