/**
 * Every colour the dashboards choose is the same comparison: green when a value
 * did not fall, red when it did. `Trend` names the outcome; the palettes give the
 * hex strings each widget uses for it.
 */
module Trend {
  datatype Trend = Up | Down

  /** `green if after >= before else red`. */
  function Between(before: real, after: real): (t: Trend)
  {
    if after >= before then Up else Down
  }

  datatype Palette = Palette(up: string, down: string)

  /** Line segments and volume bars of the line chart. */
  const ChartPalette := Palette("#26A69A", "#EF5350")
  /** Price and change labels of the live-price cards. */
  const QuotePalette := Palette("#27AE60", "#C0392B")
  /** Candles, price labels and sparkline of the ticker dashboard. */
  const TickerPalette := Palette("#14b814", "#d64545")

  function Colour(p: Palette, t: Trend): string
  {
    if t == Up then p.up else p.down
  }
}
