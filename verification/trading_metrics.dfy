/** The figures the market-metrics panel derives from the query's data: the
    volume total and daily average, the RSI zone and volatility band labels,
    the top of the order book, and the liquidity ratio.
 */
module TradingMetrics {
  import opened Wrappers
  import opened Indicators
  import opened KongSwap

  /** What the panel shows: a skeleton while loading, an error card when the
      query failed or has no data, otherwise the metrics. */
  datatype Panel = Skeleton | LoadFailed | Loaded(metrics: Metrics)

  function PanelFor(isLoading: bool, error: bool, data: Option<Metrics>): (p: Panel)
    ensures p.Skeleton? <==> isLoading
    ensures p.LoadFailed? <==> !isLoading && (error || data.None?)
    ensures p.Loaded? ==> data == Some(p.metrics)
  {
    if isLoading then Skeleton
    else if error || data.None? then LoadFailed
    else Loaded(data.value)
  }

  // ---------------------------------------------------------------------
  // Volume

  function UsdVolumes(volume: seq<VolumeRecord>): (xs: seq<real>)
    ensures |xs| == |volume|
    ensures forall i | 0 <= i < |xs| :: xs[i] == volume[i].volumeUSD
  {
    seq(|volume|, i requires 0 <= i < |volume| => volume[i].volumeUSD)
  }

  /** `volume.reduce((sum, v) => sum + v.volumeUSD, 0)`. */
  function TotalVolume(volume: seq<VolumeRecord>): (total: real)
    ensures volume == [] ==> total == 0.0
  {
    Sum(UsdVolumes(volume))
  }

  /** The reduction folds from the left: the total of a list is the total of
      all but its last record plus that record's USD volume. */
  lemma TotalVolumeSnoc(volume: seq<VolumeRecord>, v: VolumeRecord)
    ensures TotalVolume(volume + [v]) == TotalVolume(volume) + v.volumeUSD
  {
    assert UsdVolumes(volume + [v])[..|volume|] == UsdVolumes(volume);
  }

  /** `totalVolume / (volume.length || 1)`: the mean USD volume, and 0 for
      an empty list instead of a division by zero. */
  function AverageDailyVolume(volume: seq<VolumeRecord>): (avg: real)
    ensures volume == [] ==> avg == 0.0
    ensures volume != [] ==> avg * |volume| as real == TotalVolume(volume)
  {
    var count := if |volume| == 0 then 1 else |volume|;
    TotalVolume(volume) / count as real
  }

  /** The average lies between the smallest and the largest daily volume. */
  lemma AverageWithinRange(volume: seq<VolumeRecord>, lo: real, hi: real)
    requires volume != []
    requires forall i | 0 <= i < |volume| :: lo <= volume[i].volumeUSD <= hi
    ensures lo <= AverageDailyVolume(volume) <= hi
  {
    SumBounds(UsdVolumes(volume), lo, hi);
    QuotientBounds(TotalVolume(volume), |volume| as real, lo, hi);
  }

  lemma QuotientBounds(total: real, n: real, lo: real, hi: real)
    requires n > 0.0 && n * lo <= total <= n * hi
    ensures lo <= total / n <= hi
  {
    assert total / n * n == total;
  }

  // ---------------------------------------------------------------------
  // Classifiers

  datatype RsiZone = Oversold | Neutral | Overbought

  /** Above 70 is overbought, below 30 oversold, anything else (70 and 30
      included) neutral. */
  function RsiZoneOf(rsi: real): (z: RsiZone)
    ensures z == Overbought <==> rsi > 70.0
    ensures z == Oversold <==> rsi < 30.0
    ensures z == Neutral <==> 30.0 <= rsi <= 70.0
  {
    if rsi > 70.0 then Overbought else if rsi < 30.0 then Oversold else Neutral
  }

  function ZoneRank(z: RsiZone): nat {
    match z
    case Oversold => 0
    case Neutral => 1
    case Overbought => 2
  }

  /** A higher RSI never gets a lower zone. */
  lemma RsiZoneMonotone(a: real, b: real)
    requires a <= b
    ensures ZoneRank(RsiZoneOf(a)) <= ZoneRank(RsiZoneOf(b))
  {
  }

  datatype VolatilityBand = Low | Medium | High

  /** Above 20 is high, above 10 medium, anything else low: 20 is medium and
      10 is low. */
  function VolatilityBandOf(volatility: real): (b: VolatilityBand)
    ensures b == High <==> volatility > 20.0
    ensures b == Medium <==> 10.0 < volatility <= 20.0
    ensures b == Low <==> volatility <= 10.0
  {
    if volatility > 20.0 then High else if volatility > 10.0 then Medium else Low
  }

  function BandRank(b: VolatilityBand): nat {
    match b
    case Low => 0
    case Medium => 1
    case High => 2
  }

  /** A higher volatility never gets a lower band. */
  lemma VolatilityBandMonotone(a: real, b: real)
    requires a <= b
    ensures BandRank(VolatilityBandOf(a)) <= BandRank(VolatilityBandOf(b))
  {
  }

  // ---------------------------------------------------------------------
  // Order book

  const DepthShown: nat := 5

  function Reverse<T>(s: seq<T>): (r: seq<T>)
    ensures |r| == |s|
    ensures forall i | 0 <= i < |s| :: r[i] == s[|s| - 1 - i]
  {
    if s == [] then [] else Reverse(s[1..]) + [s[0]]
  }

  /** `asks.slice(0, 5).reverse()`: the five best asks, best last, so the
      column reads down towards the spread. */
  function TopAsks(asks: seq<Order>): (shown: seq<Order>)
    ensures |shown| == if |asks| < DepthShown then |asks| else DepthShown
    ensures forall i | 0 <= i < |shown| :: shown[i] == asks[|shown| - 1 - i]
  {
    Reverse(if |asks| < DepthShown then asks else asks[..DepthShown])
  }

  /** `bids.slice(0, 5)`: the five best bids, best first. */
  function TopBids(bids: seq<Order>): (shown: seq<Order>)
    ensures |shown| == if |bids| < DepthShown then |bids| else DepthShown
    ensures shown <= bids
  {
    if |bids| < DepthShown then bids else bids[..DepthShown]
  }

  /** Every ask shown is one of the book's first five; reversing the shown
      asks gives back exactly those first five, in the book's order. */
  lemma TopAsksRoundTrip(asks: seq<Order>)
    ensures Reverse(TopAsks(asks)) == (if |asks| < DepthShown then asks else asks[..DepthShown])
  {
  }

  /** On the synthetic book, the displayed ladder falls from the top ask to
      the bottom bid: asks above the spread in descending order, then bids
      in descending order. */
  lemma SyntheticLadderDescends(draw: nat -> real)
    ensures var b := SyntheticOrderBook(draw);
      var ladder := TopAsks(b.asks) + TopBids(b.bids);
      |ladder| == 10 && forall i, j | 0 <= i < j < 10 :: ladder[i].price > ladder[j].price
  {
    var b := SyntheticOrderBook(draw);
    var ladder := TopAsks(b.asks) + TopBids(b.bids);
    assert |ladder| == 10;
    forall k | 0 <= k < 10
      ensures ladder[k].price == BasePrice + (if k < 5 then 5 - k else 4 - k) as real * 0.05
    {
      if k < 5 {
        assert ladder[k] == b.asks[4 - k];
      } else {
        assert ladder[k] == b.bids[k - 5];
      }
    }
  }

  // ---------------------------------------------------------------------
  // Liquidity ratio

  /** `(totalLiquidity / poolDepth) * 100` as a percentage. With a pool depth
      of 0 the division gives `Infinity` or `NaN`, which is absent here. */
  function LiquidityRatio(l: Liquidity): (ratio: Option<real>)
    ensures ratio.None? <==> l.poolDepth == 0.0
    ensures ratio.Some? ==> ratio.value * l.poolDepth == l.totalLiquidity * 100.0
  {
    if l.poolDepth == 0.0 then None else Some(l.totalLiquidity / l.poolDepth * 100.0)
  }

  /** The fallback liquidity has a defined ratio, a little under 150%. */
  lemma FallbackLiquidityRatio()
    ensures LiquidityRatio(FallbackLiquidity).Some?
    ensures 147.0 < LiquidityRatio(FallbackLiquidity).value < 148.0
  {
  }
}
