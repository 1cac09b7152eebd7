/** The ICP price feeds: the current price with its fallbacks, the price
    history, and the synthetic history that stands in for it when the feed
    fails.

    The clock is the parameter `now` (epoch milliseconds) and the random
    source the parameter `draw`: `draw(i)` is the `i`-th value
    `Math.random()` returns during one generation. The number of days is an
    integer.
 */
module PriceData {
  import opened Wrappers
  import opened JsValues

  /** One sample of the price history, time in epoch milliseconds. */
  datatype PricePoint = PricePoint(timestamp: int, price: real)

  /** The price the synthetic history starts from and reverts to, and the
      price reported when the current-price feed fails. */
  const BasePrice: real := 8.5

  // ---------------------------------------------------------------------
  // Current price

  /** `useCurrentICPPrice`: the `usd` field of the body, `|| 0`; any
      failure on the way — a thrown fetch, a response that is not ok, a body
      that cannot be read — gives 8.5. A missing `internet-computer` entry
      reads as a missing `usd`. */
  function CurrentPrice(response: Response<Num>): (p: real)
    ensures response.Threw? || response.NotOk? ==> p == BasePrice
    ensures response.Ok? && Truthy(response.body) ==> p == response.body.value
    ensures response.Ok? && !Truthy(response.body) ==> p == 0.0
  {
    match response
    case Threw => BasePrice
    case NotOk => BasePrice
    case Ok(usd) => OrElse(usd, 0.0)
  }

  /** A price of 0 means the feed answered without a usable price, never
      that it failed; a failure is the only way to get 8.5 other than the
      feed quoting exactly that. */
  lemma CurrentPriceFallbacks(response: Response<Num>)
    ensures CurrentPrice(response) == 0.0 <==>
      response.Ok? && (response.body.None? || response.body.value == 0.0)
    ensures CurrentPrice(response) == BasePrice <==>
      !response.Ok? || response.body == Some(BasePrice)
  {
  }

  // ---------------------------------------------------------------------
  // Synthetic history

  /** Milliseconds between synthetic samples: half an hour for one day, four
      hours up to a week, twelve hours up to a month, a day beyond. */
  function Interval(days: int): (ms: int)
    ensures days == 1 ==> ms == 30 * 60 * 1000
    ensures days != 1 && days <= 7 ==> ms == 4 * 60 * 60 * 1000
    ensures 7 < days <= 30 ==> ms == 12 * 60 * 60 * 1000
    ensures 30 < days ==> ms == DayMs
    ensures ms > 0
  {
    if days == 1 then 1800000
    else if days <= 7 then 14400000
    else if days <= 30 then 43200000
    else 86400000
  }

  /** `Math.floor(days * DayMs / interval)`; with a positive divisor the
      Euclidean quotient is the floor. */
  function NumPoints(days: int): (n: int)
    ensures n * Interval(days) <= days * 86400000 < (n + 1) * Interval(days)
  {
    days * DayMs / Interval(days)
  }

  /** How many samples each window gets: 48 for a day, six a day up to a
      week, two a day up to a month, one a day beyond; none for a window
      of no days. */
  lemma NumPointsByWindow(days: int)
    ensures days <= 0 ==> NumPoints(days) <= 0
    ensures days == 1 ==> NumPoints(days) == 48
    ensures 2 <= days <= 7 ==> NumPoints(days) == 6 * days
    ensures 8 <= days <= 30 ==> NumPoints(days) == 2 * days
    ensures 30 < days ==> NumPoints(days) == days
    ensures days >= 1 ==> NumPoints(days) >= 1
  {
    var i := Interval(days);
    if days <= 0 {
      assert days * DayMs <= 0;
    } else if days == 1 {
      assert days * DayMs == 48 * i;
    } else if days <= 7 {
      DivModUnique(days * DayMs, i, 6 * days, 0);
    } else if days <= 30 {
      DivModUnique(days * DayMs, i, 2 * days, 0);
    } else {
      DivModUnique(days * DayMs, i, days, 0);
    }
  }

  /** The change a draw contributes: `(draw - 0.5) * 0.15 * 8.5`, i.e. up to
      7.5% of the base price either way. */
  function Change(r: real): (c: real)
    ensures 0.0 <= r <= 1.0 ==> -0.6375 <= c <= 0.6375
  {
    (r - 0.5) * 0.15 * 8.5
  }

  /** One step of the random walk: the change plus a tenth of the way back
      to the base price. */
  function Step(p: real, r: real): (q: real)
    ensures q - BasePrice == 0.9 * (p - BasePrice) + Change(r)
  {
    p + (Change(r) + (8.5 - p) * 0.1)
  }

  /** The walk's price after `k` steps, starting from the base price. */
  function Walk(draw: nat -> real, k: nat): real {
    if k == 0 then BasePrice else Step(Walk(draw, k - 1), draw(k - 1))
  }

  /** `generateSyntheticPriceData`: `numPoints` samples `interval` apart,
      the last one `interval` before `now`, sample `i` carrying the walk's
      price after `i + 1` steps. */
  function SyntheticPriceData(days: int, now: int, draw: nat -> real): (points: seq<PricePoint>)
    ensures NumPoints(days) <= 0 ==> points == []
    ensures NumPoints(days) > 0 ==> |points| == NumPoints(days)
    ensures forall i | 0 <= i < |points| :: points[i].price == Walk(draw, i + 1)
  {
    var n := NumPoints(days);
    var interval := Interval(days);
    if n <= 0 then []
    else seq(n, i requires 0 <= i < n => PricePoint(now - (n - i) * interval, Walk(draw, i + 1)))
  }

  /** The synthetic timestamps rise by exactly one interval, end one
      interval before `now`, and start no earlier than `days` before it. */
  lemma SyntheticGrid(days: int, now: int, draw: nat -> real)
    ensures var points := SyntheticPriceData(days, now, draw);
      && (forall i | 0 <= i < |points| - 1 :: points[i + 1].timestamp == points[i].timestamp + Interval(days))
      && (|points| > 0 ==> points[|points| - 1].timestamp == now - Interval(days))
      && (|points| > 0 ==> points[0].timestamp >= now - days * DayMs)
  {
    var points := SyntheticPriceData(days, now, draw);
    var n := NumPoints(days);
    var interval := Interval(days);
    forall i | 0 <= i < |points| - 1
      ensures points[i + 1].timestamp == points[i].timestamp + interval
    {
      assert (n - i) * interval == (n - (i + 1)) * interval + interval;
    }
    if |points| > 0 {
      assert points[0].timestamp == now - n * interval;
      assert n * interval <= days * DayMs by {
        var x := days * DayMs;
        assert x == (x / interval) * interval + x % interval;
      }
    }
  }

  /** Each synthetic price moves a tenth of the way back to the base price
      plus the draw's change. */
  lemma SyntheticMeanReversion(days: int, now: int, draw: nat -> real, i: nat)
    requires 0 < i < |SyntheticPriceData(days, now, draw)|
    ensures var points := SyntheticPriceData(days, now, draw);
      points[i].price - BasePrice == 0.9 * (points[i - 1].price - BasePrice) + Change(draw(i))
  {
  }

  /** With draws in `[0, 1]` the walk never strays more than 6.375 from the
      base price: 0.9 of that plus the largest change is that again. */
  lemma {:induction false} WalkBounded(draw: nat -> real, k: nat)
    requires forall i: nat :: 0.0 <= draw(i) <= 1.0
    ensures BasePrice - 6.375 <= Walk(draw, k) <= BasePrice + 6.375
  {
    if k > 0 {
      WalkBounded(draw, k - 1);
      var c := Change(draw(k - 1));
      assert Walk(draw, k) - BasePrice == 0.9 * (Walk(draw, k - 1) - BasePrice) + c;
    }
  }

  /** So every synthetic price is positive. */
  lemma SyntheticPricesPositive(days: int, now: int, draw: nat -> real)
    requires forall i: nat :: 0.0 <= draw(i) <= 1.0
    ensures forall p | p in SyntheticPriceData(days, now, draw) :: 2.125 <= p.price <= 14.875
  {
    var points := SyntheticPriceData(days, now, draw);
    forall p | p in points ensures 2.125 <= p.price <= 14.875 {
      var i :| 0 <= i < |points| && points[i] == p;
      WalkBounded(draw, i + 1);
    }
  }

  /** The generator's loop: the price carried from step to step, one sample
      pushed per step. */
  method GenerateSyntheticPriceData(days: int, now: int, draw: nat -> real) returns (points: seq<PricePoint>)
    ensures points == SyntheticPriceData(days, now, draw)
  {
    var interval := Interval(days);
    var numPoints := NumPoints(days);
    points := [];
    var currentPrice := BasePrice;
    var i: nat := 0;
    while i < numPoints
      invariant numPoints > 0 ==> i <= numPoints
      invariant numPoints <= 0 ==> i == 0
      invariant |points| == i
      invariant currentPrice == Walk(draw, i)
      invariant forall k | 0 <= k < i :: points[k] == PricePoint(now - (numPoints - k) * interval, Walk(draw, k + 1))
    {
      var timestamp := now - (numPoints - i) * interval;
      currentPrice := Step(currentPrice, draw(i));
      points := points + [PricePoint(timestamp, currentPrice)];
      i := i + 1;
    }
  }

  // ---------------------------------------------------------------------
  // History

  /** The market-chart body: its `prices` array of `[timestamp, price]`
      pairs, `None` when the field is missing. */
  datatype ChartBody = ChartBody(prices: Option<seq<(int, real)>>)

  /** `useHistoricalPriceData`: the pairs as points when the feed answers
      with at least one; otherwise — failure, missing or empty prices — the
      synthetic history. */
  function HistoricalPrices(response: Response<ChartBody>, days: int, now: int, draw: nat -> real): (h: seq<PricePoint>)
    ensures response.Ok? && response.body.prices.Some? && |response.body.prices.value| > 0 ==>
      var pairs := response.body.prices.value;
      |h| == |pairs| && forall i | 0 <= i < |pairs| :: h[i].timestamp == pairs[i].0 && h[i].price == pairs[i].1
    ensures !(response.Ok? && response.body.prices.Some? && |response.body.prices.value| > 0) ==>
      h == SyntheticPriceData(days, now, draw)
  {
    if response.Ok? && response.body.prices.Some? && |response.body.prices.value| > 0 then
      var pairs := response.body.prices.value;
      seq(|pairs|, i requires 0 <= i < |pairs| => PricePoint(pairs[i].0, pairs[i].1))
    else SyntheticPriceData(days, now, draw)
  }

  function ToPairs(h: seq<PricePoint>): (pairs: seq<(int, real)>)
    ensures |pairs| == |h|
  {
    seq(|h|, i requires 0 <= i < |h| => (h[i].timestamp, h[i].price))
  }

  /** The feed's pairs come back out of the history exactly as they went
      in. */
  lemma HistoryKeepsPairs(pairs: seq<(int, real)>, days: int, now: int, draw: nat -> real)
    requires |pairs| > 0
    ensures ToPairs(HistoricalPrices(Ok(ChartBody(Some(pairs))), days, now, draw)) == pairs
  {
    var h := HistoricalPrices(Ok(ChartBody(Some(pairs))), days, now, draw);
    assert forall i | 0 <= i < |pairs| :: ToPairs(h)[i] == pairs[i];
  }

  /** For a window of at least one day the chart always has a history to
      draw, whatever the feed does. */
  lemma HistoryNeverEmpty(response: Response<ChartBody>, days: int, now: int, draw: nat -> real)
    requires days >= 1
    ensures |HistoricalPrices(response, days, now, draw)| >= 1
  {
    NumPointsByWindow(days);
  }
}
