/** How the price chart lines its indicator series up with the price
    history: one row per price sample, each indicator read at the same
    index, and JavaScript `||` fallbacks for missing values.
 */
module PriceChart {
  import opened Wrappers
  import opened JsValues
  import opened Indicators
  import opened PriceData

  /** A row of the main chart with its four moving-average overlays. */
  datatype ChartRow = ChartRow(timestamp: int, price: real, ma20: Num, ma50: Num, ma100: Num, ma200: Num)

  datatype RsiRow = RsiRow(timestamp: int, value: real)

  datatype MacdRow = MacdRow(timestamp: int, macdLine: real, signalLine: real, histogram: real)

  datatype ChartData = ChartData(rows: seq<ChartRow>, rsi: seq<RsiRow>, macd: seq<MacdRow>)

  const RsiPeriod: nat := 14
  const FastPeriod: nat := 12
  const SlowPeriod: nat := 26
  const SignalPeriod: nat := 9

  /** `priceHistory.map(p => p.price)`. */
  function Prices(history: seq<PricePoint>): (ps: seq<real>)
    ensures |ps| == |history|
    ensures forall i | 0 <= i < |history| :: ps[i] == history[i].price
  {
    seq(|history|, i requires 0 <= i < |history| => history[i].price)
  }

  /** The main chart's rows: each price sample with the four moving
      averages at its index. */
  function PriceRows(history: seq<PricePoint>): (rows: seq<ChartRow>)
    ensures |rows| == |history|
    ensures forall i | 0 <= i < |history| ::
      && rows[i].timestamp == history[i].timestamp
      && rows[i].price == history[i].price
      && rows[i].ma20 == Sma(Prices(history), 20)[i]
      && rows[i].ma50 == Sma(Prices(history), 50)[i]
      && rows[i].ma100 == Sma(Prices(history), 100)[i]
      && rows[i].ma200 == Sma(Prices(history), 200)[i]
  {
    var prices := Prices(history);
    var ma20 := Sma(prices, 20);
    var ma50 := Sma(prices, 50);
    var ma100 := Sma(prices, 100);
    var ma200 := Sma(prices, 200);
    var n := |history|;
    seq(n, i requires 0 <= i < n =>
      ChartRow(history[i].timestamp, history[i].price, ma20[i], ma50[i], ma100[i], ma200[i]))
  }

  /** The RSI panel's rows: the RSI at each price sample's index, `|| 50`. */
  function RsiRows(history: seq<PricePoint>): (rows: seq<RsiRow>)
    ensures |rows| == |history|
    ensures forall i | 0 <= i < |history| ::
      && rows[i].timestamp == history[i].timestamp
      && rows[i].value == OrElse(Some(Rsi(Prices(history), RsiPeriod)[i]), NeutralRsi)
  {
    var rsi := Rsi(Prices(history), RsiPeriod);
    var n := |history|;
    seq(n, i requires 0 <= i < n => RsiRow(history[i].timestamp, OrElse(Some(rsi[i]), NeutralRsi)))
  }

  /** The MACD panel's rows: the three MACD values at each price sample's
      index, each `|| 0`. */
  function MacdRows(history: seq<PricePoint>): (rows: seq<MacdRow>)
    ensures |rows| == |history|
    ensures forall i | 0 <= i < |history| ::
      var m := Macd(Prices(history), FastPeriod, SlowPeriod, SignalPeriod)[i];
      && rows[i].timestamp == history[i].timestamp
      && rows[i].macdLine == OrElse(m.macdLine, 0.0)
      && rows[i].signalLine == OrElse(m.signalLine, 0.0)
      && rows[i].histogram == OrElse(m.histogram, 0.0)
  {
    var macd := Macd(Prices(history), FastPeriod, SlowPeriod, SignalPeriod);
    var n := |history|;
    seq(n, i requires 0 <= i < n =>
      MacdRow(history[i].timestamp, OrElse(macd[i].macdLine, 0.0),
              OrElse(macd[i].signalLine, 0.0), OrElse(macd[i].histogram, 0.0)))
  }

  /** The three series the chart draws. Row `i` of each carries the
      timestamp of price sample `i`; the indicators' own timestamps play no
      part. */
  function BuildChart(history: seq<PricePoint>): (c: ChartData)
    ensures |c.rows| == |history| && |c.rsi| == |history| && |c.macd| == |history|
    ensures forall i | 0 <= i < |history| ::
      && c.rows[i].timestamp == history[i].timestamp
      && c.rows[i].price == history[i].price
      && c.rsi[i].timestamp == history[i].timestamp
      && c.macd[i].timestamp == history[i].timestamp
    ensures forall i | 0 <= i < |history| ::
      && c.rows[i].ma20 == Sma(Prices(history), 20)[i]
      && c.rows[i].ma50 == Sma(Prices(history), 50)[i]
      && c.rows[i].ma100 == Sma(Prices(history), 100)[i]
      && c.rows[i].ma200 == Sma(Prices(history), 200)[i]
    ensures forall i | 0 <= i < |history| ::
      c.rsi[i].value == OrElse(Some(Rsi(Prices(history), RsiPeriod)[i]), NeutralRsi)
    ensures forall i | 0 <= i < |history| ::
      var m := Macd(Prices(history), FastPeriod, SlowPeriod, SignalPeriod)[i];
      && c.macd[i].macdLine == OrElse(m.macdLine, 0.0)
      && c.macd[i].signalLine == OrElse(m.signalLine, 0.0)
      && c.macd[i].histogram == OrElse(m.histogram, 0.0)
  {
    ChartData(PriceRows(history), RsiRows(history), MacdRows(history))
  }

  /** The signal line and the histogram the chart draws are 0 at every row,
      whatever the prices: short histories take the all-zero branch of MACD,
      longer ones have a NaN signal line that `|| 0` turns into 0. */
  lemma ChartSignalAlwaysZero(history: seq<PricePoint>)
    ensures forall i | 0 <= i < |history| ::
      BuildChart(history).macd[i].signalLine == 0.0 && BuildChart(history).macd[i].histogram == 0.0
  {
    if |history| >= SlowPeriod {
      MacdSignalAbsent(Prices(history), FastPeriod, SlowPeriod, SignalPeriod);
    }
  }

  /** The MACD line the chart draws is 0 for the first 25 rows, and for
      every row of a history shorter than 26 samples. */
  lemma ChartMacdLineWarmup(history: seq<PricePoint>, i: nat)
    requires i < |history| && (i < SlowPeriod - 1 || |history| < SlowPeriod)
    ensures BuildChart(history).macd[i].macdLine == 0.0
  {
    if |history| >= SlowPeriod {
      MacdLineWarmup(Prices(history), FastPeriod, SlowPeriod, SignalPeriod, i);
    }
  }

  /** Every RSI value the chart draws lies strictly between 0 and 100: a
      computed 0 is replaced by 50 and 100 is never reached. */
  lemma ChartRsiRange(history: seq<PricePoint>)
    ensures forall i | 0 <= i < |history| ::
      0.0 < BuildChart(history).rsi[i].value < 100.0
  {
    var rsi := Rsi(Prices(history), RsiPeriod);
    var rows := RsiRows(history);
    assert BuildChart(history).rsi == rows;
    forall i | 0 <= i < |history|
      ensures 0.0 < rows[i].value < 100.0
    {
      assert 0.0 <= rsi[i] < 100.0;
      assert rows[i].value == OrElse(Some(rsi[i]), NeutralRsi);
    }
  }

  /** The first 14 RSI rows, and every row of a history of at most 14
      samples, are the neutral 50. */
  lemma ChartRsiWarmup(history: seq<PricePoint>, i: nat)
    requires i < |history| && (i < RsiPeriod || |history| <= RsiPeriod)
    ensures BuildChart(history).rsi[i].value == NeutralRsi
  {
  }

  /** The moving-average overlays are absent exactly during their warm-up,
      so the chart never draws a padded value. */
  lemma ChartMovingAverageWarmup(history: seq<PricePoint>, i: nat)
    requires i < |history|
    ensures BuildChart(history).rows[i].ma20.None? <==> i < 19
    ensures BuildChart(history).rows[i].ma200.None? <==> i < 199
  {
  }
}
