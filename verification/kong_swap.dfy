/** The market metrics query: four independent sources (volume, liquidity,
    order book, indicators), each normalised from loosely typed JSON with
    `||` fallbacks. A source that answers with a non-ok status keeps its
    empty default; only a thrown error installs the synthetic fallback.

    `Date.now()` is the parameter `now`; the `Math.random()` draws are the
    functions `volumeDraw` and `bookDraw`, the i-th call being `draw(i)`.
 */
module KongSwap {
  import opened Wrappers
  import opened JsValues

  datatype VolumeRecord = VolumeRecord(timestamp: Num, volume: real, volumeUSD: real)

  datatype Liquidity = Liquidity(totalLiquidity: real, totalLiquidityUSD: real, poolDepth: real, tvl: real)

  datatype Order = Order(price: real, amount: real)

  datatype OrderBook = OrderBook(bids: seq<Order>, asks: seq<Order>, spread: real)

  datatype MarketIndicators = MarketIndicators(movingAverage7d: real, movingAverage30d: real, rsi: real, volatility: real)

  datatype Metrics = Metrics(
    volume: seq<VolumeRecord>,
    liquidity: Option<Liquidity>,
    orderBook: Option<OrderBook>,
    indicators: Option<MarketIndicators>)

  // ---------------------------------------------------------------------
  // Response bodies: the fields the code reads, under their wire names

  datatype RawVolume = RawVolume(timestamp: Num, time: Num, volume: Num, volumeUSD: Num, volume_usd: Num)

  datatype VolumeBody = VolumeArray(records: seq<RawVolume>) | NotAnArray

  datatype RawLiquidity = RawLiquidity(
    totalLiquidity: Num, total: Num,
    totalLiquidityUSD: Num, total_usd: Num,
    poolDepth: Num, depth: Num,
    tvl: Num)

  datatype RawOrderBook = RawOrderBook(bids: Option<seq<Order>>, asks: Option<seq<Order>>, spread: Num)

  datatype RawIndicators = RawIndicators(
    ma7: Num, movingAverage7d: Num,
    ma30: Num, movingAverage30d: Num,
    rsi: Num, volatility: Num)

  const BasePrice: real := 8.5

  // ---------------------------------------------------------------------
  // Volume

  /** One volume record: the timestamp from `timestamp` or else `time`, the
      volume or else 0, the USD volume from `volumeUSD`, then `volume_usd`,
      then 0. */
  function NormalizeVolume(v: RawVolume): (r: VolumeRecord)
    ensures Truthy(v.timestamp) ==> r.timestamp == v.timestamp
    ensures !Truthy(v.timestamp) ==> r.timestamp == v.time
    ensures r.volume == (if Truthy(v.volume) then v.volume.value else 0.0)
    ensures Truthy(v.volumeUSD) ==> r.volumeUSD == v.volumeUSD.value
    ensures !Truthy(v.volumeUSD) && Truthy(v.volume_usd) ==> r.volumeUSD == v.volume_usd.value
    ensures !Truthy(v.volumeUSD) && !Truthy(v.volume_usd) ==> r.volumeUSD == 0.0
  {
    VolumeRecord(Or(v.timestamp, v.time), OrElse(v.volume, 0.0), OrElse(Or(v.volumeUSD, v.volume_usd), 0.0))
  }

  /** `generateSyntheticVolume(days)`: one record per day, the i-th stamped
      `now - (days - i)` days, its volume `500000 + draw(i) * 300000` and
      its USD volume the volume at the base price. */
  function SyntheticVolume(days: nat, now: int, draw: nat -> real): (r: seq<VolumeRecord>)
    ensures |r| == days
    ensures forall i | 0 <= i < days :: r[i].timestamp == Some((now - (days - i) * DayMs) as real)
    ensures forall i | 0 <= i < days :: r[i].volume == 500000.0 + draw(i) * 300000.0
    ensures forall i | 0 <= i < days :: r[i].volumeUSD == r[i].volume * BasePrice
  {
    seq(days, i requires 0 <= i < days =>
      var baseVolume := 500000.0 + draw(i) * 300000.0;
      VolumeRecord(Some((now - (days - i) * DayMs) as real), baseVolume, baseVolume * BasePrice))
  }

  /** The synthetic timestamps are one day apart, ascending, and the last is
      one day before `now`. */
  lemma SyntheticVolumeGrid(days: nat, now: int, draw: nat -> real)
    requires days >= 1
    ensures SyntheticVolume(days, now, draw)[days - 1].timestamp == Some((now - DayMs) as real)
    ensures forall i | 1 <= i < days ::
      SyntheticVolume(days, now, draw)[i].timestamp.value
        == SyntheticVolume(days, now, draw)[i - 1].timestamp.value + DayMs as real
  {
    var r := SyntheticVolume(days, now, draw);
    forall i | 1 <= i < days
      ensures r[i].timestamp.value == r[i - 1].timestamp.value + DayMs as real
    {
      assert (now - (days - i) * DayMs) == (now - (days - (i - 1)) * DayMs) + DayMs;
    }
  }

  /** With every draw in `[0, 1)`, as `Math.random()` gives, each synthetic
      volume lies in `[500000, 800000)`. */
  lemma SyntheticVolumeBounds(days: nat, now: int, draw: nat -> real)
    requires forall i: nat | i < days :: 0.0 <= draw(i) < 1.0
    ensures forall i | 0 <= i < days ::
      500000.0 <= SyntheticVolume(days, now, draw)[i].volume < 800000.0
  {
    var r := SyntheticVolume(days, now, draw);
    forall i | 0 <= i < days
      ensures 500000.0 <= r[i].volume < 800000.0
    {
      assert 0.0 <= draw(i) * 300000.0 < 300000.0;
    }
  }

  /** The volume source. */
  function VolumeFrom(response: Response<VolumeBody>, days: nat, now: int, draw: nat -> real): (r: seq<VolumeRecord>)
    ensures response.Threw? ==> r == SyntheticVolume(days, now, draw)
    ensures response.NotOk? || response == Ok(NotAnArray) ==> r == []
    ensures response.Ok? && response.body.VolumeArray? ==>
      var records := response.body.records;
      |r| == |records| && forall i | 0 <= i < |r| :: r[i] == NormalizeVolume(records[i])
  {
    match response
    case Threw => SyntheticVolume(days, now, draw)
    case NotOk => []
    case Ok(NotAnArray) => []
    case Ok(VolumeArray(records)) =>
      seq(|records|, i requires 0 <= i < |records| => NormalizeVolume(records[i]))
  }

  // ---------------------------------------------------------------------
  // Liquidity

  /** The liquidity figures installed when the request throws. */
  const FallbackLiquidity: Liquidity := Liquidity(1250000.0, 10625000.0, 850000.0, 12500000.0)

  function NormalizeLiquidity(l: RawLiquidity): (r: Liquidity)
    ensures r.totalLiquidity == (if Truthy(l.totalLiquidity) then l.totalLiquidity.value
                                 else if Truthy(l.total) then l.total.value else 0.0)
    ensures r.totalLiquidityUSD == (if Truthy(l.totalLiquidityUSD) then l.totalLiquidityUSD.value
                                    else if Truthy(l.total_usd) then l.total_usd.value else 0.0)
    ensures r.poolDepth == (if Truthy(l.poolDepth) then l.poolDepth.value
                            else if Truthy(l.depth) then l.depth.value else 0.0)
    ensures r.tvl == (if Truthy(l.tvl) then l.tvl.value else 0.0)
  {
    OrElseChain(l.totalLiquidity, l.total, 0.0);
    OrElseChain(l.totalLiquidityUSD, l.total_usd, 0.0);
    OrElseChain(l.poolDepth, l.depth, 0.0);
    Liquidity(
      OrElse(Or(l.totalLiquidity, l.total), 0.0),
      OrElse(Or(l.totalLiquidityUSD, l.total_usd), 0.0),
      OrElse(Or(l.poolDepth, l.depth), 0.0),
      OrElse(l.tvl, 0.0))
  }

  /** The liquidity source. */
  function LiquidityFrom(response: Response<RawLiquidity>): (r: Option<Liquidity>)
    ensures response.Threw? ==> r == Some(FallbackLiquidity)
    ensures response.NotOk? ==> r.None?
    ensures response.Ok? ==> r == Some(NormalizeLiquidity(response.body))
  {
    match response
    case Threw => Some(FallbackLiquidity)
    case NotOk => None
    case Ok(body) => Some(NormalizeLiquidity(body))
  }

  // ---------------------------------------------------------------------
  // Order book

  /** The synthetic ladder: five bids stepping down from the base price by
      0.05, five asks stepping up, amounts `draw * 10000 + 5000`, the bids'
      draws first. */
  function SyntheticOrderBook(draw: nat -> real): (b: OrderBook)
    ensures |b.bids| == 5 && |b.asks| == 5 && b.spread == 0.1
    ensures forall i | 0 <= i < 5 ::
      && b.bids[i].price == BasePrice - (i + 1) as real * 0.05
      && b.asks[i].price == BasePrice + (i + 1) as real * 0.05
    ensures forall i | 0 <= i < 5 ::
      && b.bids[i].amount == draw(i) * 10000.0 + 5000.0
      && b.asks[i].amount == draw(5 + i) * 10000.0 + 5000.0
  {
    OrderBook(
      seq(5, i requires 0 <= i < 5 => Order(BasePrice - (i + 1) as real * 0.05, draw(i) * 10000.0 + 5000.0)),
      seq(5, i requires 0 <= i < 5 => Order(BasePrice + (i + 1) as real * 0.05, draw(5 + i) * 10000.0 + 5000.0)),
      0.1)
  }

  /** The synthetic book is a consistent ladder: bids strictly falling, asks
      strictly rising, every bid below every ask, and the stated spread is
      the gap between the best ask and the best bid. */
  lemma SyntheticOrderBookLadder(draw: nat -> real)
    ensures var b := SyntheticOrderBook(draw);
      && (forall i, j | 0 <= i < j < 5 :: b.bids[i].price > b.bids[j].price)
      && (forall i, j | 0 <= i < j < 5 :: b.asks[i].price < b.asks[j].price)
      && (forall i, j | 0 <= i < 5 && 0 <= j < 5 :: b.bids[i].price < b.asks[j].price)
      && b.asks[0].price - b.bids[0].price == b.spread
  {
  }

  /** With draws in `[0, 1)`, every synthetic amount lies in `[5000, 15000)`. */
  lemma SyntheticOrderBookAmounts(draw: nat -> real)
    requires forall i: nat | i < 10 :: 0.0 <= draw(i) < 1.0
    ensures var b := SyntheticOrderBook(draw);
      forall i | 0 <= i < 5 ::
        && 5000.0 <= b.bids[i].amount < 15000.0
        && 5000.0 <= b.asks[i].amount < 15000.0
  {
    var b := SyntheticOrderBook(draw);
    forall i | 0 <= i < 5
      ensures 5000.0 <= b.bids[i].amount < 15000.0 && 5000.0 <= b.asks[i].amount < 15000.0
    {
      assert 0.0 <= draw(i) < 1.0 && 0.0 <= draw(5 + i) < 1.0;
    }
  }

  /** The order-book source: missing sides become empty, a falsy spread 0. */
  function OrderBookFrom(response: Response<RawOrderBook>, draw: nat -> real): (r: Option<OrderBook>)
    ensures response.Threw? ==> r == Some(SyntheticOrderBook(draw))
    ensures response.NotOk? ==> r.None?
    ensures response.Ok? ==>
      var raw := response.body;
      && r.Some?
      && r.value.bids == (if raw.bids.Some? then raw.bids.value else [])
      && r.value.asks == (if raw.asks.Some? then raw.asks.value else [])
      && r.value.spread == (if Truthy(raw.spread) then raw.spread.value else 0.0)
  {
    match response
    case Threw => Some(SyntheticOrderBook(draw))
    case NotOk => None
    case Ok(raw) => Some(OrderBook(raw.bids.GetOr([]), raw.asks.GetOr([]), OrElse(raw.spread, 0.0)))
  }

  // ---------------------------------------------------------------------
  // Indicators

  /** The indicator values installed when the request throws. */
  const FallbackIndicators: MarketIndicators := MarketIndicators(8.45, 8.35, 55.3, 15.2)

  function NormalizeIndicators(d: RawIndicators): (r: MarketIndicators)
    ensures r.movingAverage7d == (if Truthy(d.ma7) then d.ma7.value
                                  else if Truthy(d.movingAverage7d) then d.movingAverage7d.value else 0.0)
    ensures r.movingAverage30d == (if Truthy(d.ma30) then d.ma30.value
                                   else if Truthy(d.movingAverage30d) then d.movingAverage30d.value else 0.0)
    ensures r.rsi == (if Truthy(d.rsi) then d.rsi.value else 0.0)
    ensures r.volatility == (if Truthy(d.volatility) then d.volatility.value else 0.0)
  {
    OrElseChain(d.ma7, d.movingAverage7d, 0.0);
    OrElseChain(d.ma30, d.movingAverage30d, 0.0);
    MarketIndicators(
      OrElse(Or(d.ma7, d.movingAverage7d), 0.0),
      OrElse(Or(d.ma30, d.movingAverage30d), 0.0),
      OrElse(d.rsi, 0.0),
      OrElse(d.volatility, 0.0))
  }

  /** The indicators source. */
  function IndicatorsFrom(response: Response<RawIndicators>): (r: Option<MarketIndicators>)
    ensures response.Threw? ==> r == Some(FallbackIndicators)
    ensures response.NotOk? ==> r.None?
    ensures response.Ok? ==> r == Some(NormalizeIndicators(response.body))
  {
    match response
    case Threw => Some(FallbackIndicators)
    case NotOk => None
    case Ok(body) => Some(NormalizeIndicators(body))
  }

  // ---------------------------------------------------------------------
  // The whole query

  /** The query function: each field of the result is decided by its own
      source alone. */
  function FetchMetrics(
    volume: Response<VolumeBody>, liquidity: Response<RawLiquidity>,
    orderBook: Response<RawOrderBook>, indicators: Response<RawIndicators>,
    days: nat, now: int, volumeDraw: nat -> real, bookDraw: nat -> real): (m: Metrics)
    ensures m.volume == VolumeFrom(volume, days, now, volumeDraw)
    ensures m.liquidity == LiquidityFrom(liquidity)
    ensures m.orderBook == OrderBookFrom(orderBook, bookDraw)
    ensures m.indicators == IndicatorsFrom(indicators)
  {
    Metrics(
      VolumeFrom(volume, days, now, volumeDraw),
      LiquidityFrom(liquidity),
      OrderBookFrom(orderBook, bookDraw),
      IndicatorsFrom(indicators))
  }

  /** When every request fails with a non-ok status, the result is the
      initial one: no volume and nothing else. */
  lemma AllNotOkIsEmpty(days: nat, now: int, volumeDraw: nat -> real, bookDraw: nat -> real)
    ensures FetchMetrics(NotOk, NotOk, NotOk, NotOk, days, now, volumeDraw, bookDraw)
         == Metrics([], None, None, None)
  {
  }

  /** When every request throws, every source carries its synthetic data,
      so the view always has something to show. */
  lemma AllThrownIsSynthetic(days: nat, now: int, volumeDraw: nat -> real, bookDraw: nat -> real)
    ensures var m := FetchMetrics(Threw, Threw, Threw, Threw, days, now, volumeDraw, bookDraw);
      && |m.volume| == days
      && m.liquidity == Some(FallbackLiquidity)
      && m.orderBook.Some? && |m.orderBook.value.bids| == 5 && |m.orderBook.value.asks| == 5
      && m.indicators == Some(FallbackIndicators)
  {
  }
}
