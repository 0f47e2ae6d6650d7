/** The weekly income chart of
    `app/router/dashboard/components/CurrencyAnalytics.tsx`: the candle shape
    the file defines for a week and the suggestion derived from the last
    week. The chart itself draws two transparent bars and never passes the
    shape to either, so the candle is what the shape would draw, not what
    the page shows. */
module CurrencyAnalytics {
  import opened Wrappers
  import opened Numeric

  /** One week of the series. */
  datatype Candle = Candle(week: int, open: real, close: real, high: real, low: real)

  const RisingFill := "#10b981"
  const FallingFill := "#ef4444"

  /** The body of a candle as the shape computes it. */
  datatype Body = Body(growing: bool, height: real, fill: string)

  /** `CandlestickBar` (defined, but not attached to any bar of the chart):
      a week is growing when it closes at or above its open; the body's
      height is the distance between the two. */
  function CandleBody(c: Candle): (b: Body)
    ensures b.growing <==> c.close >= c.open
    ensures b.height >= 0.0
    ensures b.growing ==> c.open + b.height == c.close
    ensures !b.growing ==> c.close + b.height == c.open
    ensures b.fill == (if b.growing then RisingFill else FallingFill)
  {
    var growing := c.close >= c.open;
    Body(growing, Abs(c.close - c.open), if growing then RisingFill else FallingFill)
  }

  /** The suggestion's three cases. A percentage is `None` when the week
      opened at zero and JavaScript would have divided by zero. */
  datatype Suggestion =
    | GrowthAdvice(percent: Option<real>, week: int)
    | LossAdvice(percent: Option<real>, week: int)
    | NoChange

  /** `getSuggestion`: it reads the last week only (an empty series would
      throw); growth when it closed above its open, loss when below, and no
      change otherwise. The loss message reports the percentage without its
      sign. */
  function Suggest(data: seq<Candle>): (s: Suggestion)
    requires |data| > 0
    ensures var last := data[|data| - 1];
      && (s.GrowthAdvice? <==> last.close > last.open)
      && (s.LossAdvice? <==> last.close < last.open)
      && (s.NoChange? <==> last.close == last.open)
      && (!s.NoChange? ==> s.week == last.week && (s.percent.Some? <==> last.open != 0.0))
    ensures var last := data[|data| - 1];
      s.GrowthAdvice? && s.percent.Some? ==> last.open * (s.percent.value / 100.0) == last.close - last.open
    ensures var last := data[|data| - 1];
      s.LossAdvice? && s.percent.Some? ==> s.percent.value > 0.0 && Abs(last.open) * (s.percent.value / 100.0) == last.open - last.close
  {
    var last := data[|data| - 1];
    var growth := last.close - last.open;
    var percent := if last.open == 0.0 then None else Some(growth / last.open * 100.0);
    if growth > 0.0 then GrowthAdvice(percent, last.week)
    else if growth < 0.0 then
      LossAdvice(if percent.Some? then Some(Abs(percent.value)) else None, last.week)
    else NoChange
  }

  /** Earlier weeks never change the suggestion. */
  lemma SuggestionReadsLastWeekOnly(earlier: seq<Candle>, data: seq<Candle>)
    requires |data| > 0
    ensures Suggest(earlier + data) == Suggest(data)
  {
    assert (earlier + data)[|earlier + data| - 1] == data[|data| - 1];
  }

  /** The suggestion agrees with the colour `CandlestickBar` gives the last
      candle, except for a flat week, which the shape colours green but the
      suggestion reports as unchanged. */
  lemma SuggestionMatchesLastCandle(data: seq<Candle>)
    requires |data| > 0
    ensures Suggest(data).GrowthAdvice? ==> CandleBody(data[|data| - 1]).growing
    ensures Suggest(data).LossAdvice? <==> !CandleBody(data[|data| - 1]).growing
    ensures Suggest(data).NoChange? ==> CandleBody(data[|data| - 1]).growing && CandleBody(data[|data| - 1]).height == 0.0
  {
  }

  /** The eight weeks the chart shows. */
  const Weeks := [
    Candle(27, 1100.0, 1150.0, 1200.0, 1080.0),
    Candle(28, 1150.0, 1250.0, 1280.0, 1120.0),
    Candle(29, 1250.0, 1200.0, 1260.0, 1180.0),
    Candle(30, 1200.0, 1300.0, 1350.0, 1190.0),
    Candle(31, 1300.0, 1450.0, 1500.0, 1280.0),
    Candle(32, 1450.0, 1550.0, 1580.0, 1400.0),
    Candle(33, 1550.0, 1650.0, 1700.0, 1520.0),
    Candle(34, 1650.0, 1600.0, 1680.0, 1580.0)
  ]

  /** The chart's last week fell from 1650 to 1600, so it suggests a loss of
      50/1650 of the opening, about 3.03%, in week 34. */
  lemma ShownSuggestion()
    ensures Suggest(Weeks) == LossAdvice(Some(100.0 / 33.0), 34)
  {
  }
}
