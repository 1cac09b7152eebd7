/** The technical-indicator library: simple and exponential moving averages,
    the relative strength index with Wilder smoothing, and MACD.

    JavaScript numbers are exact reals here. A number that may be `NaN` (or
    an array read past the end, which is `undefined`) is a `Num`: `None`
    stands for NaN, and the arithmetic of `JsValues` spreads it through
    every sum and product it enters.
 */
module Indicators {
  import opened Wrappers
  import opened JsValues

  function Max(a: int, b: int): int {
    if a >= b then a else b
  }

  function Min(a: int, b: int): int {
    if a <= b then a else b
  }

  /** A price series read as numbers that are never NaN. */
  function Lift(xs: seq<real>): (r: seq<Num>)
    ensures |r| == |xs|
    ensures forall i | 0 <= i < |xs| :: r[i] == Some(xs[i])
  {
    seq(|xs|, i requires 0 <= i < |xs| => Some(xs[i]))
  }

  // ---------------------------------------------------------------------
  // Sums

  /** `xs.reduce((a, b) => a + b, 0)`. */
  function Sum(xs: seq<real>): real {
    if xs == [] then 0.0 else Sum(xs[..|xs| - 1]) + xs[|xs| - 1]
  }

  /** The same fold over numbers that may be NaN: defined exactly when every
      term is. */
  function SumNum(xs: seq<Num>): (r: Num)
    ensures r.Some? <==> forall i | 0 <= i < |xs| :: xs[i].Some?
  {
    if xs == [] then Some(0.0) else Plus(SumNum(xs[..|xs| - 1]), xs[|xs| - 1])
  }

  /** Summing a NaN-free series as numbers that may be NaN gives its sum. */
  lemma {:induction false} SumNumLift(xs: seq<real>)
    ensures SumNum(Lift(xs)) == Some(Sum(xs))
  {
    if xs != [] {
      assert Lift(xs)[..|xs| - 1] == Lift(xs[..|xs| - 1]);
      SumNumLift(xs[..|xs| - 1]);
    }
  }

  /** The fold can also be read from the front. */
  lemma {:induction false} SumFront(xs: seq<real>)
    requires xs != []
    ensures Sum(xs) == xs[0] + Sum(xs[1..])
  {
    if |xs| > 1 {
      assert xs[..|xs| - 1][1..] == xs[1..][..|xs[1..]| - 1];
      SumFront(xs[..|xs| - 1]);
    }
  }

  /** A sum of terms between `lo` and `hi` lies between `|xs|·lo` and `|xs|·hi`. */
  lemma {:induction false} SumBounds(xs: seq<real>, lo: real, hi: real)
    requires forall i | 0 <= i < |xs| :: lo <= xs[i] <= hi
    ensures |xs| as real * lo <= Sum(xs) <= |xs| as real * hi
  {
    if xs != [] {
      SumBounds(xs[..|xs| - 1], lo, hi);
    }
  }

  /** A sum of non-negative terms is non-negative. */
  lemma {:induction false} SumNonNegative(xs: seq<real>)
    requires forall i | 0 <= i < |xs| :: xs[i] >= 0.0
    ensures Sum(xs) >= 0.0
  {
    if xs != [] {
      SumNonNegative(xs[..|xs| - 1]);
    }
  }

  // ---------------------------------------------------------------------
  // SMA

  /** `calculateSMA`: one entry per price; NaN before the first full window,
      then the mean of the last `period` prices: `period` times the entry
      gives back the window's sum. */
  function Sma(prices: seq<real>, period: nat): (r: seq<Num>)
    requires period >= 1
    ensures |r| == |prices|
    ensures forall i | 0 <= i < |r| :: r[i].None? <==> i < period - 1
    ensures forall i | period - 1 <= i < |r| ::
      r[i].value * period as real == Sum(prices[i - period + 1..i + 1])
  {
    seq(|prices|, i requires 0 <= i < |prices| =>
      if i < period - 1 then None
      else Some(Sum(prices[i - period + 1..i + 1]) / period as real))
  }

  /** Each defined SMA entry lies between the smallest and the largest price
      of its window. */
  lemma SmaWithinWindow(prices: seq<real>, period: nat, i: nat, lo: real, hi: real)
    requires period >= 1 && period - 1 <= i < |prices|
    requires forall j | i - period + 1 <= j <= i :: lo <= prices[j] <= hi
    ensures Sma(prices, period)[i].Some?
    ensures lo <= Sma(prices, period)[i].value <= hi
  {
    var w := prices[i - period + 1..i + 1];
    assert forall j | 0 <= j < |w| :: lo <= w[j] <= hi by {
      forall j | 0 <= j < |w| ensures lo <= w[j] <= hi {
        assert w[j] == prices[i - period + 1 + j];
      }
    }
    SumBounds(w, lo, hi);
    MeanBounds(Sum(w), period as real, lo, hi);
  }

  /** A total between `p * lo` and `p * hi` averages to between `lo` and
      `hi`. */
  lemma MeanBounds(total: real, p: real, lo: real, hi: real)
    requires p > 0.0 && p * lo <= total <= p * hi
    ensures lo <= total / p <= hi
  {
    assert total / p * p == total;
  }

  /** The window slides: each SMA entry after the first defined one is the
      previous entry plus the price that entered the window minus the price
      that left it, divided by `period`. */
  lemma SmaSlides(prices: seq<real>, period: nat, i: nat)
    requires period >= 1 && period <= i < |prices|
    ensures Sma(prices, period)[i].Some? && Sma(prices, period)[i - 1].Some?
    ensures Sma(prices, period)[i].value
         == Sma(prices, period)[i - 1].value + (prices[i] - prices[i - period]) / period as real
  {
    var before := prices[i - period..i];
    var after := prices[i - period + 1..i + 1];
    assert after[..|after| - 1] == before[1..];
    SumFront(before);
    assert Sum(after) == Sum(before) - prices[i - period] + prices[i];
  }

  // ---------------------------------------------------------------------
  // EMA

  /** `k = 2 / (period + 1)`. */
  function Smoothing(period: nat): (k: real)
    requires period >= 1
    ensures 0.0 < k <= 1.0
  {
    2.0 / (period as real + 1.0)
  }

  /** One EMA step: `price * k + previous * (1 - k)`. */
  function EmaStep(x: Num, prev: Num, period: nat): Num
    requires period >= 1
  {
    Plus(Times(x, Smoothing(period)), Times(prev, 1.0 - Smoothing(period)))
  }

  /** `firstSMA`: the sum of the first `period` inputs (all of them when there
      are fewer) divided by `period`. */
  function EmaSeed(xs: seq<Num>, period: nat): Num
    requires period >= 1
  {
    DivideBy(SumNum(xs[..Min(period, |xs|)]), period as real)
  }

  /** The `ema` array before padding: the seed, then one smoothed value for
      each input from index `period` on. */
  function EmaChain(xs: seq<Num>, period: nat): (r: seq<Num>)
    requires period >= 1 && |xs| >= 1
    ensures |r| == Max(1, |xs| - period + 1)
    decreases |xs|
  {
    if |xs| <= period then [EmaSeed(xs, period)]
    else
      var prev := EmaChain(xs[..|xs| - 1], period);
      prev + [EmaStep(xs[|xs| - 1], prev[|prev| - 1], period)]
  }

  /** `calculateEMA`: empty for an empty input; otherwise `period - 1` NaNs
      followed by the chain. A non-empty input shorter than `period` still
      yields `period` entries. */
  function Ema(xs: seq<Num>, period: nat): (r: seq<Num>)
    requires period >= 1
    ensures |r| == if xs == [] then 0 else Max(period, |xs|)
    ensures forall i | 0 <= i < |r| && i < period - 1 :: r[i].None?
  {
    if xs == [] then [] else seq(period - 1, _ => None) + EmaChain(xs, period)
  }

  /** The chain starts with the seed, however long the input is. */
  lemma {:induction false} EmaChainFirst(xs: seq<Num>, period: nat)
    requires period >= 1 && |xs| >= 1
    ensures EmaChain(xs, period)[0] == EmaSeed(xs, period)
    decreases |xs|
  {
    if |xs| > period {
      var ys := xs[..|xs| - 1];
      EmaChainFirst(ys, period);
      assert ys[..Min(period, |ys|)] == xs[..Min(period, |xs|)];
    }
  }

  /** Every chain entry after the seed smooths the input it stands at. */
  lemma {:induction false} EmaChainStep(xs: seq<Num>, period: nat, j: nat)
    requires period >= 1 && 1 <= j && period - 1 + j < |xs|
    ensures EmaChain(xs, period)[j] == EmaStep(xs[period - 1 + j], EmaChain(xs, period)[j - 1], period)
    decreases |xs|
  {
    var ys := xs[..|xs| - 1];
    if period - 1 + j < |xs| - 1 {
      EmaChainStep(ys, period, j);
    }
  }

  /** For an input of at least `period` prices, the EMA's first defined entry
      is the SMA's first defined entry. */
  lemma EmaSeedIsSma(prices: seq<real>, period: nat)
    requires period >= 1 && |prices| >= period
    ensures Ema(Lift(prices), period)[period - 1] == Sma(prices, period)[period - 1]
  {
    var xs := Lift(prices);
    EmaChainFirst(xs, period);
    assert xs[..period] == Lift(prices[..period]);
    SumNumLift(prices[..period]);
    assert prices[..period] == prices[period - period..period - 1 + 1];
  }

  /** From index `period` on, each EMA entry is `x[i]·k + ema[i-1]·(1-k)`. */
  lemma EmaRecurrence(xs: seq<Num>, period: nat, i: nat)
    requires period >= 1 && period <= i < |xs|
    ensures Ema(xs, period)[i] == EmaStep(xs[i], Ema(xs, period)[i - 1], period)
  {
    EmaChainStep(xs, period, i - period + 1);
  }

  /** A non-empty input shorter than `period` gives `period` entries, the last
      being the sum of all the inputs divided by `period` (not by their
      count). */
  lemma EmaShortInput(xs: seq<Num>, period: nat)
    requires period >= 1 && 1 <= |xs| < period
    ensures |Ema(xs, period)| == period
    ensures Ema(xs, period)[period - 1] == DivideBy(SumNum(xs), period as real)
  {
    assert xs[..Min(period, |xs|)] == xs;
  }

  /** Once the chain holds a NaN it holds nothing else from there on. */
  lemma {:induction false} EmaChainAbsent(xs: seq<Num>, period: nat)
    requires period >= 1 && |xs| >= 1
    requires EmaSeed(xs, period).None?
    ensures forall j | 0 <= j < |EmaChain(xs, period)| :: EmaChain(xs, period)[j].None?
    decreases |xs|
  {
    if |xs| > period {
      var ys := xs[..|xs| - 1];
      assert ys[..Min(period, |ys|)] == xs[..Min(period, |xs|)];
      EmaChainAbsent(ys, period);
    }
  }

  /** A NaN among the seed inputs makes every EMA entry NaN. */
  lemma EmaAbsentFromSeed(xs: seq<Num>, period: nat, j: nat)
    requires period >= 1 && j < |xs| && j < period && xs[j].None?
    ensures forall i | 0 <= i < |Ema(xs, period)| :: Ema(xs, period)[i].None?
  {
    assert xs[..Min(period, |xs|)][j].None?;
    EmaChainAbsent(xs, period);
  }

  /** A NaN-free input gives a defined EMA from index `period - 1` on. */
  lemma {:induction false} EmaChainDefined(xs: seq<Num>, period: nat)
    requires period >= 1 && |xs| >= 1
    requires forall i | 0 <= i < |xs| :: xs[i].Some?
    ensures forall j | 0 <= j < |EmaChain(xs, period)| :: EmaChain(xs, period)[j].Some?
    decreases |xs|
  {
    if |xs| > period {
      EmaChainDefined(xs[..|xs| - 1], period);
    }
  }

  /** Hence the EMA of prices is absent exactly during its warm-up. */
  lemma EmaOfPricesDefined(prices: seq<real>, period: nat, i: nat)
    requires period >= 1 && i < |prices|
    ensures i < |Ema(Lift(prices), period)|
    ensures Ema(Lift(prices), period)[i].None? <==> i < period - 1
  {
    if prices != [] {
      EmaChainDefined(Lift(prices), period);
    }
  }

  // ---------------------------------------------------------------------
  // RSI

  /** The gain and the loss of one price step. */
  datatype Move = Move(gain: real, loss: real)

  /** `change > 0 ? change : 0` and `change < 0 ? Math.abs(change) : 0`. */
  function MoveOf(change: real): (m: Move)
    ensures m.gain >= 0.0 && m.loss >= 0.0
    ensures m.gain == 0.0 || m.loss == 0.0
    ensures m.gain - m.loss == change
  {
    Move(if change > 0.0 then change else 0.0, if change < 0.0 then -change else 0.0)
  }

  /** One move per pair of consecutive prices. */
  function Moves(prices: seq<real>): (ms: seq<Move>)
    requires |prices| >= 1
    ensures |ms| == |prices| - 1
    ensures forall i | 0 <= i < |ms| :: ms[i] == MoveOf(prices[i + 1] - prices[i])
  {
    seq(|prices| - 1, i requires 0 <= i < |prices| - 1 => MoveOf(prices[i + 1] - prices[i]))
  }

  predicate NonNegative(ms: seq<Move>) {
    forall i | 0 <= i < |ms| :: ms[i].gain >= 0.0 && ms[i].loss >= 0.0
  }

  function Gains(ms: seq<Move>): (r: seq<real>)
    ensures |r| == |ms| && forall i | 0 <= i < |ms| :: r[i] == ms[i].gain
  {
    seq(|ms|, i requires 0 <= i < |ms| => ms[i].gain)
  }

  function Losses(ms: seq<Move>): (r: seq<real>)
    ensures |r| == |ms| && forall i | 0 <= i < |ms| :: r[i] == ms[i].loss
  {
    seq(|ms|, i requires 0 <= i < |ms| => ms[i].loss)
  }

  /** The warm-up value. */
  const NeutralRsi: real := 50.0

  /** The value a zero average loss produces: RS is taken as 100, so the
      index is `100 - 100/101`, never 100 itself. */
  const SaturatedRsi: real := 100.0 - 100.0 / 101.0

  /** `100 - 100 / (1 + rs)` with `rs = avgLoss === 0 ? 100 : avgGain / avgLoss`.
      Away from the zero-loss case it is the gain's share of all movement,
      scaled to 100. */
  function RsiOf(avgGain: real, avgLoss: real): (v: real)
    requires avgGain >= 0.0 && avgLoss >= 0.0
    ensures 0.0 <= v < 100.0
    ensures avgLoss == 0.0 ==> v == SaturatedRsi
    ensures avgLoss > 0.0 ==> v * (avgGain + avgLoss) == 100.0 * avgGain
  {
    var rs := if avgLoss == 0.0 then 100.0 else avgGain / avgLoss;
    assert rs >= 0.0;
    var v := 100.0 - 100.0 / (1.0 + rs);
    assert 100.0 / (1.0 + rs) <= 100.0 by {
      assert 100.0 / (1.0 + rs) * (1.0 + rs) == 100.0;
    }
    assert avgLoss > 0.0 ==> v * (avgGain + avgLoss) == 100.0 * avgGain by {
      if avgLoss > 0.0 {
        assert (1.0 + rs) * avgLoss == avgGain + avgLoss;
        assert v * (1.0 + rs) == 100.0 * rs;
      }
    }
    v
  }

  /** Wilder smoothing: `(avg * (period - 1) + x) / period`. */
  function Wilder(avg: real, x: real, period: nat): (r: real)
    requires period >= 1
    ensures avg >= 0.0 && x >= 0.0 ==> r >= 0.0
    ensures avg == 0.0 && x == 0.0 ==> r == 0.0
  {
    (avg * (period as real - 1.0) + x) / period as real
  }

  /** The running average the smoothing loop holds after folding in the
      first `n` values of `xs`, one Wilder step each, starting from `seed`. */
  function Smoothed(xs: seq<real>, period: nat, seed: real, n: nat): (r: real)
    requires period >= 1 && n <= |xs| && seed >= 0.0
    requires forall i | 0 <= i < |xs| :: xs[i] >= 0.0
    ensures r >= 0.0
    decreases n
  {
    if n == 0 then seed else Wilder(Smoothed(xs, period, seed, n - 1), xs[n - 1], period)
  }

  /** Folding in the first value and then `n` more is folding `n` values
      into the average the first one left. */
  lemma {:induction false} SmoothedShift(xs: seq<real>, period: nat, seed: real, n: nat)
    requires period >= 1 && n + 1 <= |xs| && seed >= 0.0
    requires forall i | 0 <= i < |xs| :: xs[i] >= 0.0
    ensures Smoothed(xs, period, seed, n + 1) == Smoothed(xs[1..], period, Wilder(seed, xs[0], period), n)
    decreases n
  {
    if n > 0 {
      SmoothedShift(xs, period, seed, n - 1);
      assert xs[1..][n - 1] == xs[n];
    }
  }

  /** `SmoothedShift` at every length. */
  lemma SmoothedShiftAll(xs: seq<real>, period: nat, seed: real)
    requires period >= 1 && |xs| >= 1 && seed >= 0.0
    requires forall i | 0 <= i < |xs| :: xs[i] >= 0.0
    ensures forall n | 0 <= n < |xs| ::
      Smoothed(xs, period, seed, n + 1) == Smoothed(xs[1..], period, Wilder(seed, xs[0], period), n)
  {
    forall n | 0 <= n < |xs|
      ensures Smoothed(xs, period, seed, n + 1) == Smoothed(xs[1..], period, Wilder(seed, xs[0], period), n)
    {
      SmoothedShift(xs, period, seed, n);
    }
  }

  /** The values after the first: smooth both averages with the next move,
      then take the index. */
  function WilderTail(ms: seq<Move>, period: nat, avgGain: real, avgLoss: real): (r: seq<real>)
    requires period >= 1 && avgGain >= 0.0 && avgLoss >= 0.0 && NonNegative(ms)
    ensures |r| == |ms|
    ensures forall i | 0 <= i < |r| :: 0.0 <= r[i] < 100.0
    decreases |ms|
  {
    if ms == [] then []
    else
      var g := Wilder(avgGain, ms[0].gain, period);
      var l := Wilder(avgLoss, ms[0].loss, period);
      [RsiOf(g, l)] + WilderTail(ms[1..], period, g, l)
  }

  /** Value `i` of the tail is the index of the averages after `i + 1`
      Wilder steps, as the smoothing loop computes them. */
  lemma {:induction false} WilderTailValues(ms: seq<Move>, period: nat, avgGain: real, avgLoss: real)
    requires period >= 1 && avgGain >= 0.0 && avgLoss >= 0.0 && NonNegative(ms)
    ensures forall i | 0 <= i < |ms| ::
      WilderTail(ms, period, avgGain, avgLoss)[i]
        == RsiOf(Smoothed(Gains(ms), period, avgGain, i + 1), Smoothed(Losses(ms), period, avgLoss, i + 1))
    decreases |ms|
  {
    if ms != [] {
      var g := Wilder(avgGain, ms[0].gain, period);
      var l := Wilder(avgLoss, ms[0].loss, period);
      WilderTailValues(ms[1..], period, g, l);
      assert Gains(ms)[1..] == Gains(ms[1..]);
      assert Losses(ms)[1..] == Losses(ms[1..]);
      SmoothedShiftAll(Gains(ms), period, avgGain);
      SmoothedShiftAll(Losses(ms), period, avgLoss);
    }
  }

  /** The moves of a price series never carry a negative gain or loss. */
  lemma MovesNonNegative(prices: seq<real>)
    requires |prices| >= 1
    ensures NonNegative(Moves(prices))
  {
  }

  /** The first averages: the mean gain and the mean loss of the first
      `period` moves. */
  function SeedAverage(xs: seq<real>, period: nat): (r: real)
    requires period >= 1
    requires forall i | 0 <= i < |xs| :: xs[i] >= 0.0
    ensures r >= 0.0
    ensures r * period as real == Sum(xs)
  {
    SumNonNegative(xs);
    Sum(xs) / period as real
  }

  /** The values from index `period` on: the index of the seed averages,
      then the Wilder-smoothed ones. */
  function RsiAfterWarmup(ms: seq<Move>, period: nat): (r: seq<real>)
    requires period >= 1 && |ms| >= period && NonNegative(ms)
    ensures |r| == |ms| - period + 1
    ensures forall i | 0 <= i < |r| :: 0.0 <= r[i] < 100.0
  {
    var g := SeedAverage(Gains(ms[..period]), period);
    var l := SeedAverage(Losses(ms[..period]), period);
    [RsiOf(g, l)] + WilderTail(ms[period..], period, g, l)
  }

  /** From the seed on, the first value is the index of the seed averages
      and value `k` the index of the averages after `k` more Wilder steps. */
  lemma RsiAfterWarmupValues(ms: seq<Move>, period: nat)
    requires period >= 1 && |ms| >= period && NonNegative(ms)
    ensures var r := RsiAfterWarmup(ms, period);
      var g := SeedAverage(Gains(ms[..period]), period);
      var l := SeedAverage(Losses(ms[..period]), period);
      && r[0] == RsiOf(g, l)
      && forall k | 1 <= k < |r| ::
           r[k] == RsiOf(Smoothed(Gains(ms)[period..], period, g, k), Smoothed(Losses(ms)[period..], period, l, k))
  {
    assert Gains(ms)[period..] == Gains(ms[period..]);
    assert Losses(ms)[period..] == Losses(ms[period..]);
    var g := SeedAverage(Gains(ms[..period]), period);
    var l := SeedAverage(Losses(ms[..period]), period);
    WilderTailValues(ms[period..], period, g, l);
  }

  /** `calculateRSI`: one value per price, all neutral when there are fewer
      than `period + 1` prices, otherwise `period` neutral values followed by
      the first index and the Wilder-smoothed ones. */
  function Rsi(prices: seq<real>, period: nat): (r: seq<real>)
    requires period >= 1
    ensures |r| == |prices|
    ensures forall i | 0 <= i < |r| :: 0.0 <= r[i] < 100.0
    ensures forall i | 0 <= i < |r| && (i < period || |prices| < period + 1) :: r[i] == NeutralRsi
  {
    if |prices| < period + 1 then
      seq(|prices|, _ => NeutralRsi)
    else
      MovesNonNegative(prices);
      seq(period, _ => NeutralRsi) + RsiAfterWarmup(Moves(prices), period)
  }

  /** After the warm-up, `calculateRSI` gives the index of the seed averages
      at `period`, and at each later index the index of the averages after
      one more Wilder step per move. */
  lemma RsiValues(prices: seq<real>, period: nat)
    requires period >= 1 && |prices| >= period + 1
    ensures var ms := Moves(prices);
      var g := SeedAverage(Gains(ms)[..period], period);
      var l := SeedAverage(Losses(ms)[..period], period);
      && Rsi(prices, period)[period] == RsiOf(g, l)
      && forall i | period < i < |prices| ::
           Rsi(prices, period)[i] == RsiOf(Smoothed(Gains(ms)[period..], period, g, i - period),
                                           Smoothed(Losses(ms)[period..], period, l, i - period))
  {
    var ms := Moves(prices);
    assert Gains(ms)[..period] == Gains(ms[..period]);
    assert Losses(ms)[..period] == Losses(ms[..period]);
    RsiAfterWarmupValues(ms, period);
    RsiPastWarmup(prices, period);
  }

  /** Past the warm-up, `calculateRSI` continues with the values from the
      seed on. */
  lemma RsiPastWarmup(prices: seq<real>, period: nat)
    requires period >= 1 && |prices| >= period + 1
    ensures forall i | period <= i < |prices| ::
      Rsi(prices, period)[i] == RsiAfterWarmup(Moves(prices), period)[i - period]
  {
    var tail := RsiAfterWarmup(Moves(prices), period);
    assert Rsi(prices, period) == seq(period, _ => NeutralRsi) + tail;
  }

  /** With no losing step the smoothed loss stays 0 and every value is the
      saturated one. */
  lemma {:induction false} WilderTailSaturates(ms: seq<Move>, period: nat, avgGain: real)
    requires period >= 1 && avgGain >= 0.0 && NonNegative(ms)
    requires forall i | 0 <= i < |ms| :: ms[i].loss == 0.0
    ensures forall i | 0 <= i < |ms| :: WilderTail(ms, period, avgGain, 0.0)[i] == SaturatedRsi
    decreases |ms|
  {
    if ms != [] {
      var g := Wilder(avgGain, ms[0].gain, period);
      WilderTailSaturates(ms[1..], period, g);
    }
  }

  /** The same from the seed on: no losing step, no value but the saturated
      one. */
  lemma RsiAfterWarmupSaturates(ms: seq<Move>, period: nat)
    requires period >= 1 && |ms| >= period && NonNegative(ms)
    requires forall i | 0 <= i < |ms| :: ms[i].loss == 0.0
    ensures forall i | 0 <= i < |RsiAfterWarmup(ms, period)| :: RsiAfterWarmup(ms, period)[i] == SaturatedRsi
  {
    var losses := Losses(ms[..period]);
    SumBounds(losses, 0.0, 0.0);
    var g := SeedAverage(Gains(ms[..period]), period);
    assert SeedAverage(losses, period) == 0.0;
    WilderTailSaturates(ms[period..], period, g);
  }

  /** On a price series that never falls, every value after the warm-up is
      `100 - 100/101`: the index saturates below 100. */
  lemma RsiNonDecreasingSaturates(prices: seq<real>, period: nat)
    requires period >= 1 && |prices| >= period + 1
    requires forall i | 0 <= i < |prices| - 1 :: prices[i] <= prices[i + 1]
    ensures forall i | period <= i < |prices| :: Rsi(prices, period)[i] == SaturatedRsi
  {
    var ms := Moves(prices);
    MovesNonNegative(prices);
    assert forall i | 0 <= i < |ms| :: ms[i].loss == 0.0;
    RsiAfterWarmupSaturates(ms, period);
    var head := seq(period, _ => NeutralRsi);
    var r := Rsi(prices, period);
    assert r == head + RsiAfterWarmup(ms, period);
    forall i | period <= i < |prices|
      ensures r[i] == SaturatedRsi
    {
      assert r[i] == RsiAfterWarmup(ms, period)[i - period];
    }
  }

  // ---------------------------------------------------------------------
  // MACD

  /** One MACD entry: line, signal and histogram. */
  datatype MacdPoint = MacdPoint(macdLine: Num, signalLine: Num, histogram: Num)

  /** `calculateMACD`: all-zero entries for an input shorter than
      `slowPeriod`; otherwise the fast EMA minus the slow EMA at each index,
      the EMA of that line, and their difference. */
  function Macd(prices: seq<real>, fastPeriod: nat, slowPeriod: nat, signalPeriod: nat): (r: seq<MacdPoint>)
    requires 1 <= fastPeriod <= slowPeriod && 1 <= signalPeriod
    ensures |r| == |prices|
    ensures |prices| < slowPeriod ==> forall i | 0 <= i < |r| :: r[i] == MacdPoint(Some(0.0), Some(0.0), Some(0.0))
    ensures forall i | 0 <= i < |r| :: r[i].histogram == Minus(r[i].macdLine, r[i].signalLine)
  {
    if |prices| < slowPeriod then
      seq(|prices|, _ => MacdPoint(Some(0.0), Some(0.0), Some(0.0)))
    else
      var line := MacdLine(prices, fastPeriod, slowPeriod);
      var signal := Ema(line, signalPeriod);
      seq(|prices|, i requires 0 <= i < |prices| => MacdPoint(line[i], signal[i], Minus(line[i], signal[i])))
  }

  /** `fastEMA.map((fast, i) => fast - slowEMA[i])`. */
  function MacdLine(prices: seq<real>, fastPeriod: nat, slowPeriod: nat): (line: seq<Num>)
    requires 1 <= fastPeriod <= slowPeriod <= |prices|
    ensures |line| == |prices|
    ensures forall i | 0 <= i < |line| :: line[i] == Minus(Ema(Lift(prices), fastPeriod)[i], Ema(Lift(prices), slowPeriod)[i])
  {
    var fast := Ema(Lift(prices), fastPeriod);
    var slow := Ema(Lift(prices), slowPeriod);
    seq(|prices|, i requires 0 <= i < |prices| => Minus(fast[i], slow[i]))
  }

  /** Once there are enough prices, the MACD line is absent exactly during the
      slow EMA's warm-up. */
  lemma MacdLineWarmup(prices: seq<real>, fastPeriod: nat, slowPeriod: nat, signalPeriod: nat, i: nat)
    requires 1 <= fastPeriod <= slowPeriod && 1 <= signalPeriod
    requires slowPeriod <= |prices| && i < |prices|
    ensures Macd(prices, fastPeriod, slowPeriod, signalPeriod)[i].macdLine.None? <==> i < slowPeriod - 1
  {
    MacdLineDefined(prices, fastPeriod, slowPeriod, i);
  }

  /** The same, for the line on its own. */
  lemma MacdLineDefined(prices: seq<real>, fastPeriod: nat, slowPeriod: nat, i: nat)
    requires 1 <= fastPeriod <= slowPeriod <= |prices| && i < |prices|
    ensures MacdLine(prices, fastPeriod, slowPeriod)[i].None? <==> i < slowPeriod - 1
  {
    EmaOfPricesDefined(prices, fastPeriod, i);
    EmaOfPricesDefined(prices, slowPeriod, i);
  }

  /** The NaN at the head of the MACD line reaches the signal line's seed, so
      whenever the slow period is at least 2 the signal line and the
      histogram are NaN at every index. */
  lemma MacdSignalAbsent(prices: seq<real>, fastPeriod: nat, slowPeriod: nat, signalPeriod: nat)
    requires 1 <= fastPeriod <= slowPeriod && 1 <= signalPeriod && 2 <= slowPeriod
    requires slowPeriod <= |prices|
    ensures forall i | 0 <= i < |prices| ::
      && Macd(prices, fastPeriod, slowPeriod, signalPeriod)[i].signalLine.None?
      && Macd(prices, fastPeriod, slowPeriod, signalPeriod)[i].histogram.None?
  {
    var line := MacdLine(prices, fastPeriod, slowPeriod);
    MacdLineWarmup(prices, fastPeriod, slowPeriod, signalPeriod, 0);
    EmaAbsentFromSeed(line, signalPeriod, 0);
  }

  // ---------------------------------------------------------------------
  // The signal line as evidently intended

  /** An EMA over numbers that are all defined is absent exactly during its
      warm-up. */
  lemma EmaDefinedAfterWarmup(xs: seq<Num>, period: nat, i: nat)
    requires period >= 1 && |xs| >= 1 && i < |Ema(xs, period)|
    requires forall j | 0 <= j < |xs| :: xs[j].Some?
    ensures Ema(xs, period)[i].None? <==> i < period - 1
  {
    EmaChainDefined(xs, period);
    if i >= period - 1 {
      assert Ema(xs, period)[i] == EmaChain(xs, period)[i - (period - 1)];
    }
  }

  /** The signal line over a MACD line whose values are defined from
      `start` on: absent before `start`, then the EMA of the rest. */
  function SignalFrom(line: seq<Num>, start: nat, period: nat): (signal: seq<Num>)
    requires start < |line| && period >= 1
    ensures |signal| >= |line|
    ensures forall i | 0 <= i < start :: signal[i].None?
  {
    seq(start, _ => None) + Ema(line[start..], period)
  }

  /** Such a signal line is defined exactly once its EMA has warmed up over
      the defined values. */
  lemma SignalFromDefined(line: seq<Num>, start: nat, period: nat, i: nat)
    requires start < |line| && period >= 1 && i < |line|
    requires forall j | start <= j < |line| :: line[j].Some?
    ensures SignalFrom(line, start, period)[i].Some? <==> i >= start + period - 1
  {
    if i >= start {
      var tail := line[start..];
      assert forall j | 0 <= j < |tail| :: tail[j] == line[start + j];
      EmaDefinedAfterWarmup(tail, period, i - start);
      assert SignalFrom(line, start, period)[i] == Ema(tail, period)[i - start];
    }
  }

  /** MACD with the signal line taken as the EMA of the defined part of the
      MACD line, from index `slowPeriod - 1` on, rather than of the whole
      line with its leading NaNs. */
  function MacdCorrected(prices: seq<real>, fastPeriod: nat, slowPeriod: nat, signalPeriod: nat): (r: seq<MacdPoint>)
    requires 1 <= fastPeriod <= slowPeriod && 1 <= signalPeriod
    ensures |r| == |prices|
    ensures |prices| < slowPeriod ==> forall i | 0 <= i < |r| :: r[i] == MacdPoint(Some(0.0), Some(0.0), Some(0.0))
    ensures forall i | 0 <= i < |r| :: r[i].histogram == Minus(r[i].macdLine, r[i].signalLine)
    ensures |prices| >= slowPeriod ==>
      forall i | 0 <= i < |r| :: r[i].macdLine == Macd(prices, fastPeriod, slowPeriod, signalPeriod)[i].macdLine
  {
    if |prices| < slowPeriod then
      seq(|prices|, _ => MacdPoint(Some(0.0), Some(0.0), Some(0.0)))
    else
      var line := MacdLine(prices, fastPeriod, slowPeriod);
      var signal := SignalFrom(line, slowPeriod - 1, signalPeriod);
      seq(|prices|, i requires 0 <= i < |prices| => MacdPoint(line[i], signal[i], Minus(line[i], signal[i])))
  }

  /** With the correction the signal line and the histogram are defined from
      index `slowPeriod + signalPeriod - 2` on, once the signal EMA has
      warmed up over the defined MACD values. */
  lemma MacdCorrectedSignalDefined(prices: seq<real>, fastPeriod: nat, slowPeriod: nat, signalPeriod: nat, i: nat)
    requires 1 <= fastPeriod <= slowPeriod && 1 <= signalPeriod
    requires slowPeriod <= |prices| && i < |prices|
    ensures var r := MacdCorrected(prices, fastPeriod, slowPeriod, signalPeriod);
      && (r[i].signalLine.Some? <==> i >= slowPeriod + signalPeriod - 2)
      && (r[i].histogram.Some? <==> i >= slowPeriod + signalPeriod - 2)
  {
    var line := MacdLine(prices, fastPeriod, slowPeriod);
    forall j | slowPeriod - 1 <= j < |line|
      ensures line[j].Some?
    {
      MacdLineDefined(prices, fastPeriod, slowPeriod, j);
    }
    MacdLineDefined(prices, fastPeriod, slowPeriod, i);
    SignalFromDefined(line, slowPeriod - 1, signalPeriod, i);
    var signal := SignalFrom(line, slowPeriod - 1, signalPeriod);
    assert MacdCorrected(prices, fastPeriod, slowPeriod, signalPeriod)[i]
      == MacdPoint(line[i], signal[i], Minus(line[i], signal[i]));
  }
}
