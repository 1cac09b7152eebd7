# ICP trading game frontend: a Dafny model

This project models the client-side logic of the ICP paper-trading game's web
frontend. It covers:

- **Indicators.** The technical indicators drawn over the price chart: RSI,
  MACD, the simple moving average and the exponential moving average.
- **Price chart.** How the chart turns those indicators into rows.
- **Price feeds.** The ICP price feeds, with their fallbacks and the
  synthetic random-walk history.
- **Kong Swap metrics.** The metrics hook and the panel that shows them.
- **Account views.** The unrealized P&L of leveraged positions, the
  leaderboard and the portfolio valuation.
- **Trading.** The buy/sell mutations and how their errors are normalised,
  the trading panel's USD/ICP conversion and toast classification.
- **Registration form.** Display-name validation.
- **Game mode and timer.** The game-mode context with its browser storage,
  the countdown to the next competition reset, and its clock display.
- **Chart extras.** The trendline list with the mouse gesture that draws a
  line, and the past-winners card.

JavaScript's `number` is modelled as `real`, and `NaN` or `undefined` as
`None` in `Num = Option<real>`. `||` is modelled by `JsValues.Or` and
`JsValues.OrElse`. A fetch outcome is `Response<T>`: it threw, it answered
not-ok, or it answered ok with a body. The clock (`now`) and
`Math.random()` (`draw: nat -> real`, the i-th draw of one run) are
parameters. Dafny's operators are Euclidean. This matters only for the
`Math.floor` of non-negative or positive-divisor quotients, where the two
agree.

## Model

| member | source | states |
|---|---|---|
| Indicators.Sma | src/frontend/src/utils/technicalIndicators.ts:127-140 | One value per price. Position i is absent (NaN) exactly when i < period - 1. Every later entry times the period equals the sum of the last `period` prices up to i, so it is their mean. |
| Indicators.SmaWithinWindow | src/frontend/src/utils/technicalIndicators.ts:130-136 | Once the window is full the average is defined. It lies between any lower and upper bound of the prices in its window. |
| Indicators.SmaSlides | src/frontend/src/utils/technicalIndicators.ts:134-135 | Consecutive averages differ by (entering price - leaving price) / period: the window slides by one. |
| Indicators.Ema | src/frontend/src/utils/technicalIndicators.ts:148-168 | Empty input gives an empty result. Otherwise the length is max(period, n), and the first period - 1 entries are NaN padding. |
| Indicators.EmaSeedIsSma | src/frontend/src/utils/technicalIndicators.ts:155-156 | The first defined EMA value equals the SMA at the same position. |
| Indicators.EmaRecurrence | src/frontend/src/utils/technicalIndicators.ts:159-161 | Every later value is price * k + previous * (1 - k). |
| Indicators.EmaShortInput | src/frontend/src/utils/technicalIndicators.ts:155-165 | Input shorter than the period still yields `period` entries. The last is the sum over the whole input divided by the period. |
| Indicators.EmaAbsentFromSeed | src/frontend/src/utils/technicalIndicators.ts:155-161 | A NaN among the seed inputs makes every EMA value NaN. |
| Indicators.EmaOfPricesDefined | src/frontend/src/utils/technicalIndicators.ts:148-168 | On real prices the EMA at i is NaN exactly when i < period - 1. |
| Indicators.EmaDefinedAfterWarmup | src/frontend/src/utils/technicalIndicators.ts:159-165 | On fully defined input the EMA at i is NaN exactly when i < period - 1. |
| Indicators.Smoothing | src/frontend/src/utils/technicalIndicators.ts:151 | The smoothing factor 2 / (period + 1) lies in (0, 1]. |
| Indicators.MoveOf | src/frontend/src/utils/technicalIndicators.ts:35-37 | A price change splits into a non-negative gain and loss, at most one of them non-zero, whose difference is the change. |
| Indicators.Moves | src/frontend/src/utils/technicalIndicators.ts:34-38 | One move per consecutive pair of prices, n - 1 in all. No move has a negative gain or loss. |
| Indicators.RsiOf | src/frontend/src/utils/technicalIndicators.ts:45-67 | RSI lies in [0, 100). With no losses it is the saturated 100 - 100/101. Otherwise RSI * (gain + loss) = 100 * gain. |
| Indicators.Wilder | src/frontend/src/utils/technicalIndicators.ts:63-64 | Wilder smoothing keeps averages non-negative, and keeps a zero average zero under a zero input. |
| Indicators.SeedAverage | src/frontend/src/utils/technicalIndicators.ts:41-42 | The seed average is non-negative, and times the period it is the sum of the first `period` gains (or losses). |
| Indicators.SmoothedShift | src/frontend/src/utils/technicalIndicators.ts:62-64 | Smoothing in the first value and then n more is smoothing n values into the average the first one left, so the loop's running average is well defined. |
| Indicators.WilderTail | src/frontend/src/utils/technicalIndicators.ts:62-73 | One value per remaining move, each in [0, 100). |
| Indicators.WilderTailValues | src/frontend/src/utils/technicalIndicators.ts:62-73 | Value i of the tail is RsiOf of the gain and loss averages after i + 1 Wilder steps from the seed. |
| Indicators.RsiAfterWarmup | src/frontend/src/utils/technicalIndicators.ts:41-73 | From the seed average on, there is one RSI value per remaining move, each in [0, 100). |
| Indicators.RsiAfterWarmupValues | src/frontend/src/utils/technicalIndicators.ts:41-73 | The first value from the seed on is RsiOf of the seed averages. Value k is RsiOf of the averages after k more Wilder steps. |
| Indicators.Rsi | src/frontend/src/utils/technicalIndicators.ts:21-76 | One value per price, each in [0, 100). The first `period` values are 50, and all of them are 50 when there are at most `period` prices. |
| Indicators.RsiPastWarmup | src/frontend/src/utils/technicalIndicators.ts:48-73 | Past the first `period` values, the RSI series continues with the values from the seed on. |
| Indicators.RsiValues | src/frontend/src/utils/technicalIndicators.ts:41-73 | With more than `period` prices, the value at `period` is RsiOf of the seed averages of the first `period` moves. Each later value i is RsiOf of those averages after i - period Wilder steps over the following moves. |
| Indicators.RsiNonDecreasingSaturates | src/frontend/src/utils/technicalIndicators.ts:45-66 | For a never-falling price series every RSI after the warm-up is 100 - 100/101, not 100. |
| Indicators.Macd | src/frontend/src/utils/technicalIndicators.ts:86-119 | One point per price. Fewer prices than the slow period gives all-zero points. The histogram is always line minus signal, NaN propagating. |
| Indicators.MacdLine | src/frontend/src/utils/technicalIndicators.ts:101-105 | The MACD line is the fast EMA minus the slow EMA, position by position. |
| Indicators.MacdLineWarmup | src/frontend/src/utils/technicalIndicators.ts:105 | The MACD line is NaN exactly during the slow EMA's warm-up. |
| Indicators.MacdSignalAbsent | src/frontend/src/utils/technicalIndicators.ts:105-116 | With a slow period of 2 or more, the signal line and histogram are NaN at every position. |
| Indicators.SignalFrom | src/frontend/src/utils/technicalIndicators.ts:108 | The corrected signal line covers the whole MACD line and is absent before the line starts. |
| Indicators.SignalFromDefined | src/frontend/src/utils/technicalIndicators.ts:108 | On a line defined from `start`, the corrected signal is defined exactly from start + period - 1. |
| Indicators.MacdCorrected | src/frontend/src/utils/technicalIndicators.ts:86-119 | Same short-input and histogram rules as Indicators.Macd. The signal is the EMA of the defined part of the line. |
| Indicators.MacdCorrectedSignalDefined | src/frontend/src/utils/technicalIndicators.ts:105-116 | In the corrected MACD the signal line and histogram are defined exactly from slow + signal - 2 on. |
| PriceChart.Prices | src/frontend/src/components/PriceChart.tsx:36 | The price series is the history's prices, in order. |
| PriceChart.PriceRows | src/frontend/src/components/PriceChart.tsx:30-50 | One chart row per history point, carrying its time, price and the four moving averages at that index. |
| PriceChart.RsiRows | src/frontend/src/components/PriceChart.tsx:53-56 | One RSI row per history point. A NaN or zero RSI shows as 50. |
| PriceChart.MacdRows | src/frontend/src/components/PriceChart.tsx:59-67 | One MACD row per history point. A NaN or zero field shows as 0. |
| PriceChart.BuildChart | src/frontend/src/components/PriceChart.tsx:30-67 | The three row lists have the history's length, and every row carries its point's timestamp. |
| PriceChart.ChartSignalAlwaysZero | src/frontend/src/components/PriceChart.tsx:38-67 | On the chart the MACD signal line and histogram are 0 at every point. |
| PriceChart.ChartMacdLineWarmup | src/frontend/src/components/PriceChart.tsx:59-67 | The chart's MACD line is 0 during the slow EMA's warm-up, or everywhere for a short history. |
| PriceChart.ChartRsiRange | src/frontend/src/components/PriceChart.tsx:37-56 | Every RSI on the chart lies in (0, 100). |
| PriceChart.ChartRsiWarmup | src/frontend/src/components/PriceChart.tsx:53-56 | The chart's RSI is 50 for the first 14 points, and everywhere for a history of 14 points or fewer. |
| PriceChart.ChartMovingAverageWarmup | src/frontend/src/components/PriceChart.tsx:39-50 | The MA20 and MA200 columns are blank exactly for the first 19 and 199 rows. |
| PriceData.CurrentPrice | src/frontend/src/hooks/useICPPriceData.ts:18-43 | Any failure gives 8.5. A readable answer gives its usd field, or 0 when that is missing or 0. |
| PriceData.CurrentPriceFallbacks | src/frontend/src/hooks/useICPPriceData.ts:33-37 | The price is 0 exactly when the feed answered without a usable price. It is 8.5 exactly on failure or an actual quote of 8.5. |
| PriceData.Interval | src/frontend/src/hooks/useICPPriceData.ts:86-89 | The sample spacing is half an hour, four hours, twelve hours or a day by window, and always positive. |
| PriceData.NumPoints | src/frontend/src/hooks/useICPPriceData.ts:91 | The point count is the floor of the window over the interval: count times interval is at most the window, and one more interval passes it. |
| PriceData.NumPointsByWindow | src/frontend/src/hooks/useICPPriceData.ts:86-91 | A one-day window has 48 samples, then six a day up to a week, two a day up to a month, one a day beyond. No days gives no samples. |
| PriceData.Change | src/frontend/src/hooks/useICPPriceData.ts:100 | A draw in [0, 1] moves the price by at most 7.5% of 8.5 either way. |
| PriceData.Step | src/frontend/src/hooks/useICPPriceData.ts:100-102 | One step keeps nine tenths of the distance from 8.5 and adds the change. |
| PriceData.SyntheticPriceData | src/frontend/src/hooks/useICPPriceData.ts:82-111 | numPoints samples, or none when that is not positive. Sample i carries the walk's price after i + 1 steps. |
| PriceData.SyntheticGrid | src/frontend/src/hooks/useICPPriceData.ts:91-97 | Timestamps rise by one interval, the last is one interval before now, and the first is no earlier than `days` before now. |
| PriceData.SyntheticMeanReversion | src/frontend/src/hooks/useICPPriceData.ts:99-102 | Each synthetic price reverts a tenth of the way to 8.5 from the previous one, plus the draw's change. |
| PriceData.WalkBounded | src/frontend/src/hooks/useICPPriceData.ts:94-102 | With draws in [0, 1] the walk never leaves 8.5 ± 6.375. |
| PriceData.SyntheticPricesPositive | src/frontend/src/hooks/useICPPriceData.ts:82-111 | Every synthetic price lies in [2.125, 14.875], so it is positive. |
| PriceData.GenerateSyntheticPriceData | src/frontend/src/hooks/useICPPriceData.ts:92-110 | The generator's loop builds exactly the synthetic history. |
| PriceData.HistoricalPrices | src/frontend/src/hooks/useICPPriceData.ts:45-79 | A non-empty price array becomes the history pair by pair. Failure, or a missing or empty array, gives the synthetic history. |
| PriceData.HistoryKeepsPairs | src/frontend/src/hooks/useICPPriceData.ts:66-69 | The feed's pairs read back from the history unchanged. |
| PriceData.HistoryNeverEmpty | src/frontend/src/hooks/useICPPriceData.ts:61-73 | For a window of one day or more the history is never empty. |
| KongSwap.NormalizeVolume | src/frontend/src/hooks/useKongSwapMetrics.ts:56-60 | Each volume field takes the first truthy alternative, else 0. |
| KongSwap.SyntheticVolume | src/frontend/src/hooks/useKongSwapMetrics.ts:159-177 | One record a day ending a day before now. Volume is 500000 + draw * 300000 and USD volume is 8.5 times that. |
| KongSwap.SyntheticVolumeGrid | src/frontend/src/hooks/useKongSwapMetrics.ts:161-166 | The last synthetic record is one day before now, and the records are one day apart. |
| KongSwap.SyntheticVolumeBounds | src/frontend/src/hooks/useKongSwapMetrics.ts:167-172 | With draws in [0, 1), every synthetic daily volume lies in [500000, 800000). |
| KongSwap.VolumeFrom | src/frontend/src/hooks/useKongSwapMetrics.ts:47-67 | A thrown fetch gives synthetic volume. Not ok, or a body that is not an array, leaves it empty. An array is normalised record by record. |
| KongSwap.NormalizeLiquidity | src/frontend/src/hooks/useKongSwapMetrics.ts:77-82 | Each liquidity field takes its first truthy alternative, else 0. |
| KongSwap.LiquidityFrom | src/frontend/src/hooks/useKongSwapMetrics.ts:69-93 | Thrown gives the fixed fallback liquidity, not ok gives null, and ok gives the normalised body. |
| KongSwap.SyntheticOrderBook | src/frontend/src/hooks/useKongSwapMetrics.ts:112-123 | Five bids and five asks 0.05 apart below and above 8.5. Each amount is draw * 10000 + 5000. The spread is 0.1. |
| KongSwap.SyntheticOrderBookLadder | src/frontend/src/hooks/useKongSwapMetrics.ts:114-122 | Synthetic bids fall and asks rise away from 8.5. Every bid is below every ask, and the best ask minus the best bid is the stated spread. |
| KongSwap.SyntheticOrderBookAmounts | src/frontend/src/hooks/useKongSwapMetrics.ts:116-120 | With draws in [0, 1) every synthetic amount lies in [5000, 15000). |
| KongSwap.OrderBookFrom | src/frontend/src/hooks/useKongSwapMetrics.ts:95-124 | Thrown gives the synthetic book and not ok gives null. Ok gives the body's sides, or empty sides, with spread `|| 0`. |
| KongSwap.NormalizeIndicators | src/frontend/src/hooks/useKongSwapMetrics.ts:134-139 | Each indicator field takes its first truthy alternative, else 0. |
| KongSwap.IndicatorsFrom | src/frontend/src/hooks/useKongSwapMetrics.ts:126-150 | Thrown gives the fixed fallback indicators, not ok gives null, and ok gives the normalised body. |
| KongSwap.FetchMetrics | src/frontend/src/hooks/useKongSwapMetrics.ts:36-157 | The four sources are fetched independently. No failure of one affects another. |
| KongSwap.AllNotOkIsEmpty | src/frontend/src/hooks/useKongSwapMetrics.ts:40-45 | When every source answers not ok, the result is the initial empty metrics. |
| KongSwap.AllThrownIsSynthetic | src/frontend/src/hooks/useKongSwapMetrics.ts:63-150 | When every fetch throws, every part is the synthetic or fixed fallback. |
| TradingMetrics.PanelFor | src/frontend/src/components/TradingMetrics.tsx:16-42 | Skeleton exactly while loading, and the failure card exactly on error or missing data. Otherwise the panel shows the data. |
| TradingMetrics.TotalVolume | src/frontend/src/components/TradingMetrics.tsx:44 | No records give a total of 0. |
| TradingMetrics.TotalVolumeSnoc | src/frontend/src/components/TradingMetrics.tsx:44 | Total volume is the running sum of USD volumes: one more record adds its USD volume. |
| TradingMetrics.AverageDailyVolume | src/frontend/src/components/TradingMetrics.tsx:45 | The average times the record count gives the total. No records gives 0, since the divisor falls back to 1. |
| TradingMetrics.AverageWithinRange | src/frontend/src/components/TradingMetrics.tsx:44-45 | The average lies within any bounds of the daily USD volumes. |
| TradingMetrics.RsiZoneOf | src/frontend/src/components/TradingMetrics.tsx:78-79 | Overbought exactly above 70, oversold exactly below 30, neutral in between. |
| TradingMetrics.RsiZoneMonotone | src/frontend/src/components/TradingMetrics.tsx:78-79 | A higher RSI never gives a lower zone. |
| TradingMetrics.VolatilityBandOf | src/frontend/src/components/TradingMetrics.tsx:92-93 | High exactly above 20, medium in (10, 20], low otherwise. |
| TradingMetrics.VolatilityBandMonotone | src/frontend/src/components/TradingMetrics.tsx:92-93 | Higher volatility never gives a lower band. |
| TradingMetrics.Reverse | src/frontend/src/components/TradingMetrics.tsx:263 | Reversal puts element i at position n - 1 - i. |
| TradingMetrics.TopAsks | src/frontend/src/components/TradingMetrics.tsx:263 | At most five asks are shown, the fifth first and the best last. |
| TradingMetrics.TopBids | src/frontend/src/components/TradingMetrics.tsx:279 | At most five bids are shown, a prefix of the book in its order. |
| TradingMetrics.TopAsksRoundTrip | src/frontend/src/components/TradingMetrics.tsx:263 | Reversing the shown asks gives back the book's first five asks. |
| TradingMetrics.SyntheticLadderDescends | src/frontend/src/components/TradingMetrics.tsx:263-279 | For the synthetic book the ten shown prices, asks then bids, fall strictly from top to bottom. |
| TradingMetrics.LiquidityRatio | src/frontend/src/components/TradingMetrics.tsx:227 | The ratio times the pool depth is 100 times the total liquidity. It is undefined exactly for a zero depth. |
| TradingMetrics.FallbackLiquidityRatio | src/frontend/src/components/TradingMetrics.tsx:227 | For the fallback liquidity the ratio lies between 147% and 148%. |
| Positions.UnrealizedPnL | src/frontend/src/hooks/usePositions.ts:27-31 | A long gains with the price and a short with its fall, scaled by amount and leverage. The P&L is zero at the entry price. |
| Positions.LongShortOpposite | src/frontend/src/hooks/usePositions.ts:27-31 | The same position long or short has opposite P&L. |
| Positions.PnLMonotone | src/frontend/src/hooks/usePositions.ts:27-31 | For non-negative size and leverage, long P&L rises with the price and short P&L falls with it. |
| Positions.WithPnL | src/frontend/src/hooks/usePositions.ts:27-37 | With directions already decoded: each position is kept in order, paired with its P&L at the current price. |
| Positions.QueryPositions | src/frontend/src/hooks/usePositions.ts:18-37 | With directions already decoded: no actor gives no positions. Otherwise there is one entry per open position, each valued by WithPnL. |
| Positions.DecodePosition | src/frontend/src/types/game.ts:30-36 | A record decodes to the same fields with the direction its tag means. |
| Positions.WithPnLAsWritten | src/frontend/src/hooks/usePositions.ts:24-37 | As written: each record is kept in order and priced by the strict-equality test on its raw direction tag. |
| Positions.QueryPositionsAsWritten | src/frontend/src/hooks/usePositions.ts:18-37 | As written: no actor gives no positions. Otherwise the actor's records, priced by the raw tag. |
| Positions.DecodeAll | src/frontend/src/types/game.ts:30-36 | Decoding a reply decodes each record, in order. |
| Positions.DecodeReply | src/frontend/src/hooks/usePositions.ts:19-21 | A missing actor stays missing. A reply decodes record by record. |
| Positions.AsWrittenAgreesOnEnumStrings | src/frontend/src/hooks/usePositions.ts:24-37 | When every direction arrives as the enum string, the query as written equals the query on the decoded reply. |
| Positions.QueryLongTagDiffers | src/frontend/src/hooks/usePositions.ts:25 | For a reply with one object-tagged long, the query as written shows -500 where the decoded query shows +500. |
| Positions.PositionsEnabled | src/frontend/src/hooks/usePositions.ts:14-39 | The query runs exactly with a ready actor and a known positive price. |
| Positions.UnrealizedPnLAsWritten | src/frontend/src/hooks/usePositions.ts:25-31 | As written, a position is priced as long only when its tag equals the string enum value. |
| Positions.DecodeDirection | src/frontend/src/types/game.ts:30-36 | A direction is long exactly for the object tag `long` or the string `long`. |
| Positions.UnrealizedPnLDecoded | src/frontend/src/hooks/usePositions.ts:27-31 | With the tag decoded, a long tag is priced long and a short tag short. |
| Positions.LongTagValuedAsShort | src/frontend/src/hooks/usePositions.ts:25 | A concrete long position gets the short P&L as written. |
| Positions.LongTagSignLost | src/frontend/src/hooks/usePositions.ts:25-31 | Away from the entry price, every long-tagged position's P&L has the wrong sign as written. |
| Leaderboard.ToEntry | src/frontend/src/hooks/useLeaderboard.ts:25-36 | An entry keeps the principal and balances. Total value is cash plus ICP at the price, and P&L is that minus 10000. |
| Leaderboard.ToEntries | src/frontend/src/hooks/useLeaderboard.ts:25 | One entry per account, in order. |
| Leaderboard.UseLeaderboard | src/frontend/src/hooks/useLeaderboard.ts:14-42 | No board exactly while loading, on error or without data, with those flags passed on. Otherwise a permutation of the entries, highest P&L first. |
| Leaderboard.RankedByTotalValue | src/frontend/src/hooks/useLeaderboard.ts:26-39 | Ranking by P&L is ranking by total value, highest first. |
| Leaderboard.EveryAccountRanked | src/frontend/src/hooks/useLeaderboard.ts:25-39 | Every account appears on the board. |
| Leaderboard.FindAccount | src/frontend/src/hooks/usePortfolio.ts:26-27 | The lookup finds nothing exactly when no account has the caller's principal. A hit is the first such account. |
| Leaderboard.Valuation | src/frontend/src/hooks/usePortfolio.ts:33-42 | ICP value is the balance times the price, and total value is cash plus that. |
| Leaderboard.UsePortfolio | src/frontend/src/hooks/usePortfolio.ts:13-45 | No portfolio without identity, while loading or on error. Once settled, a portfolio exists exactly when the caller has an account on the board. It is the Valuation of the first such account at the price, or at 0 without one. |
| Leaderboard.PortfolioIsCallersRow | src/frontend/src/hooks/usePortfolio.ts:26-42 | The portfolio's total value is the total the leaderboard shows for a row of the caller's at the same price. |
| Leaderboard.PortfolioMatchesLeaderboard | src/frontend/src/hooks/usePortfolio.ts:34-35 | The portfolio's total value equals the caller's leaderboard total value. |
| Leaderboard.PortfolioWithoutPrice | src/frontend/src/hooks/usePortfolio.ts:17-35 | With no price yet, ICP is valued at 0 and total value is the cash balance. |
| TradingActions.WorkingMessage | src/frontend/src/hooks/useTradingActions.ts:5 | An error's non-empty message is used, else the error's string form. |
| TradingActions.ParseBackendError | src/frontend/src/hooks/useTradingActions.ts:4-23 | Never empty. Authorization gives the setup message, then cash and ICP shortfalls give theirs, else the text itself or the default. |
| TradingActions.SetupMessageIsGeneric | src/frontend/src/hooks/useTradingActions.ts:9 | The setup message triggers none of the classifications. |
| TradingActions.DefaultMessageIsGeneric | src/frontend/src/hooks/useTradingActions.ts:22 | The default message triggers none of the classifications. |
| TradingActions.NoActorMessageIsGeneric | src/frontend/src/hooks/useTradingActions.ts:31 | The connection message triggers no classification and passes through normalisation unchanged. |
| TradingActions.CashMessageClassifies | src/frontend/src/hooks/useTradingActions.ts:13-14 | The cash message is recognised as a cash shortfall. |
| TradingActions.IcpMessageClassifies | src/frontend/src/hooks/useTradingActions.ts:17-18 | The ICP message is recognised as an ICP shortfall and not as a cash one. |
| TradingActions.IcpMessageLacksCash | src/frontend/src/hooks/useTradingActions.ts:13-18 | The ICP message does not contain the cash keyword. |
| TradingActions.ParseIsNormalised | src/frontend/src/hooks/useTradingActions.ts:4-23 | The result is one of the fixed messages or a text none of the checks match. |
| TradingActions.ParseIdempotent | src/frontend/src/hooks/useTradingActions.ts:4-23 | Normalising an already normalised message changes nothing. |
| TradingActions.TradeMutation | src/frontend/src/hooks/useTradingActions.ts:29-71 | No actor rejects with the connection message. A failed account setup rejects with its normalised message, and a failed trade with its own error. It succeeds exactly when nothing fails. |
| TradingPanel.PanelPrice | src/frontend/src/components/TradingPanel.tsx:18 | The panel price is the current price, or 0 when that is missing or 0. |
| JsValues.ToFixed | src/frontend/src/components/TradingPanel.tsx:28-38 | `toFixed` read back as a number is a whole number of units of the last decimal, within half a unit of the value. |
| TradingPanel.OnUsdChange | src/frontend/src/components/TradingPanel.tsx:24-32 | The USD field takes the input. For a non-empty input and positive price the ICP field is USD / price to six decimals: whole millionths, within half a millionth. NaN stays NaN. Otherwise it is blank. |
| TradingPanel.OnIcpChange | src/frontend/src/components/TradingPanel.tsx:34-42 | The ICP field takes the input. For a non-empty input and positive price the USD field is ICP * price to two decimals: whole cents, within half a cent. NaN stays NaN. Otherwise it is blank. |
| TradingPanel.ConversionRoundTrip | src/frontend/src/components/TradingPanel.tsx:24-42 | At a positive price, USD to ICP and back returns the amount within 0.005 + price * 0.0000005. ICP to USD and back returns it within 0.0000005 + 0.005 / price. |
| TradingPanel.RoundingBreaksExactRoundTrip | src/frontend/src/components/TradingPanel.tsx:24-42 | The round trip is not exact: 1.234567 ICP at 8.5 shows 10.49 USD, which shows 1.234118 ICP. 0.001 USD shows 0.000118 ICP, which shows 0.00 USD. |
| TradingPanel.NoPriceNoConversion | src/frontend/src/components/TradingPanel.tsx:18-36 | Without a price, typing in one field blanks the other. |
| TradingPanel.ShouldSubmit | src/frontend/src/components/TradingPanel.tsx:45-80 | Only an entered amount submits. A number submits exactly when positive, and an unparsable entry (NaN) passes the guard. |
| TradingPanel.ShouldSubmitCases | src/frontend/src/components/TradingPanel.tsx:45-80 | A blank field never submits. A number submits exactly when it is positive. |
| TradingPanel.Classify | src/frontend/src/components/TradingPanel.tsx:59-110 | Registration exactly when the message mentions it. Otherwise insufficient balance exactly on `Insufficient`, and otherwise failed. |
| TradingPanel.HandleTrade | src/frontend/src/components/TradingPanel.tsx:44-112 | An unsubmittable amount does nothing. Success clears both fields with a success toast. Failure keeps the fields and toasts the classified normalised message. |
| TradingPanel.BuyAndSellClassifyAlike | src/frontend/src/components/TradingPanel.tsx:54-110 | Buying and selling toast the same failure for the same error. |
| TradingPanel.FailedByLetters | src/frontend/src/components/TradingPanel.tsx:59-75 | A message without `g` and `I` is classified as a failed transaction. |
| TradingPanel.NoActorMessageClassified | src/frontend/src/components/TradingPanel.tsx:59-75 | The connection message toasts as a failed transaction. |
| TradingPanel.SetupMessageClassified | src/frontend/src/components/TradingPanel.tsx:59-75 | The setup message toasts as a failed transaction, not as registration required. |
| TradingPanel.CashMessageClassified | src/frontend/src/components/TradingPanel.tsx:65-69 | The cash message toasts as insufficient balance. |
| TradingPanel.NoActorToast | src/frontend/src/components/TradingPanel.tsx:54-75 | Trading without an actor toasts a failed transaction with the connection message. |
| TradingPanel.SetupFailureToast | src/frontend/src/components/TradingPanel.tsx:54-75 | An authorization failure toasts a failed transaction with the setup message. |
| TradingPanel.CashFailureToast | src/frontend/src/components/TradingPanel.tsx:54-69 | A cash shortfall toasts insufficient balance with the cash message. |
| Registration.ValidateDisplayName | src/frontend/src/components/RegistrationForm.tsx:20-31 | Lengths are in UTF-16 code units. Required exactly for a blank trimmed name, and too short exactly for a length of one. Too long exactly above 50, valid exactly for 2 to 50. |
| Registration.AstralCharacterIsLongEnough | src/frontend/src/components/RegistrationForm.tsx:24 | One character outside the Basic Multilingual Plane is two code units long and is accepted. |
| Registration.ValidationIgnoresSurroundingSpace | src/frontend/src/components/RegistrationForm.tsx:20-31 | Validation depends only on the trimmed name. |
| Registration.TypedNameNeverTooLong | src/frontend/src/components/RegistrationForm.tsx:27 | A name of at most 50 code units is never too long. |
| Registration.HandleSubmit | src/frontend/src/components/RegistrationForm.tsx:33-50 | An invalid name records the error and registers nothing. A valid one clears the error and registers the trimmed name, announced on success. |
| Registration.RegisteredNameIsClean | src/frontend/src/components/RegistrationForm.tsx:45-46 | A registered name is trimmed and between 2 and 50 code units long. |
| Registration.HandleInputChange | src/frontend/src/components/RegistrationForm.tsx:52-58 | Typing sets the name and clears any error. |
| Registration.EditClearsRefusal | src/frontend/src/components/RegistrationForm.tsx:36-58 | After a refusal, the next keystroke leaves the form as if the refusal never happened. |
| Registration.SubmitGateIsLooser | src/frontend/src/components/RegistrationForm.tsx:118 | The button allows every valid name and also some invalid ones, such as `a`. |
| GameModes.ParseMode | src/frontend/src/contexts/GameModeContext.tsx:18 | A string parses to the mode of that name, or to nothing when no mode has it. |
| GameModes.ParseModeName | src/frontend/src/contexts/GameModeContext.tsx:18-28 | Every mode's stored name parses back to that mode. |
| GameModes.InitialMode | src/frontend/src/contexts/GameModeContext.tsx:14-23 | The stored mode when it names one, and daily otherwise. |
| GameModes.NewProvider | src/frontend/src/contexts/GameModeContext.tsx:13-23 | A new provider keeps the storage it was given. |
| GameModes.SetGameMode | src/frontend/src/contexts/GameModeContext.tsx:25-30 | The mode changes. In a browser only the game-mode key is written; every other key keeps its value. |
| GameModes.ModeSurvivesReload | src/frontend/src/contexts/GameModeContext.tsx:14-30 | A mode chosen in a browser is the mode a fresh provider starts in. |
| GameModes.NoStorageStartsDaily | src/frontend/src/contexts/GameModeContext.tsx:16-27 | Outside a browser a fresh provider always starts daily. |
| GameModes.UseGameMode | src/frontend/src/contexts/GameModeContext.tsx:39-44 | The hook yields the provider above it, or fails with the fixed message when there is none. |
| GameTimer.Weekday | src/frontend/src/hooks/useGameTimer.ts:23 | The UTC weekday lies in 0..6. |
| GameTimer.StartOfDay | src/frontend/src/hooks/useGameTimer.ts:19-25 | Midnight UTC of an instant is a day boundary at or before it, less than a day earlier. |
| GameTimer.DaysUntilMonday | src/frontend/src/hooks/useGameTimer.ts:23 | 1 to 7 days, landing on a Monday. From a Monday it is a full week. |
| GameTimer.NextReset | src/frontend/src/hooks/useGameTimer.ts:12-40 | Daily resets at a day boundary within the next day. Weekly resets at a Monday boundary within the next week. |
| GameTimer.DailyResetIsNext | src/frontend/src/hooks/useGameTimer.ts:19 | No midnight after now comes before the daily reset. |
| GameTimer.WeeklyResetIsNext | src/frontend/src/hooks/useGameTimer.ts:23-25 | No Monday midnight after now comes before the weekly reset. |
| GameTimer.Split | src/frontend/src/hooks/useGameTimer.ts:46-51 | A total number of seconds splits into days, hours < 24, minutes < 60 and seconds < 60 that add back up to it. |
| GameTimer.SplitUnique | src/frontend/src/hooks/useGameTimer.ts:46-51 | A valid split is the only one of its total. |
| GameTimer.WholeSeconds | src/frontend/src/hooks/useGameTimer.ts:44 | Whole seconds left, clamped at 0: zero exactly below one second, and otherwise the floor. |
| GameTimer.CalculateTimeRemaining | src/frontend/src/hooks/useGameTimer.ts:42-52 | The remaining time is a valid split of the whole seconds left. |
| GameTimer.OneSecondLater | src/frontend/src/hooks/useGameTimer.ts:44-75 | One second later the countdown is one less, stopping at 0. |
| GameTimer.Tick | src/frontend/src/hooks/useGameTimer.ts:63-72 | While a second remains the tick shows the countdown. Once it reaches 0 it counts to the next reset instead. |
| GameTimer.TickBounds | src/frontend/src/hooks/useGameTimer.ts:60-75 | The daily timer never shows more than a day, and the weekly timer never more than a week. |
| GameTimer.FormatNumber | src/frontend/src/components/GameTimer.tsx:10 | At least two decimal digits, exactly two below 10. |
| GameTimer.FormatNumberIsPadStart | src/frontend/src/components/GameTimer.tsx:10 | Formatting is the decimal string padded to two with `0`. |
| GameTimer.FormatNumberRoundTrip | src/frontend/src/components/GameTimer.tsx:10 | Every number below 100 is shown in two digits that read back as it. |
| GameTimer.Segments | src/frontend/src/components/GameTimer.tsx:19-29 | Four segments with a days part, three without. |
| GameTimer.SegmentsRoundTrip | src/frontend/src/components/GameTimer.tsx:19-29 | The displayed segments read back as the remaining time they show. |
| Trendlines.AddTrendline | src/frontend/src/hooks/useTrendlines.ts:14-20 | The list grows by the new line at the end, and the earlier lines are unchanged. |
| Trendlines.RemoveTrendline | src/frontend/src/hooks/useTrendlines.ts:22-24 | No line keeps the id, every other line stays, and nothing is added. |
| Trendlines.RemoveIdempotent | src/frontend/src/hooks/useTrendlines.ts:22-24 | Removing twice is removing once. |
| Trendlines.RemoveAbsent | src/frontend/src/hooks/useTrendlines.ts:22-24 | Removing an unused id changes nothing. |
| Trendlines.RemoveAppend | src/frontend/src/hooks/useTrendlines.ts:22-24 | Removal keeps the order, part by part. |
| Trendlines.AddThenRemove | src/frontend/src/hooks/useTrendlines.ts:14-24 | Adding under a fresh id and removing it restores the list. |
| Trendlines.RemoveCommutes | src/frontend/src/hooks/useTrendlines.ts:22-24 | Removals of two ids commute. |
| Trendlines.ClearAll | src/frontend/src/hooks/useTrendlines.ts:26-28 | Clearing leaves no lines. |
| Trendlines.ClearAllButton | src/frontend/src/components/TrendlineDrawingTool.tsx:81-91 | Adding a line shows the clear button, and clearing hides it. |
| Trendlines.ToggleDrawingMode | src/frontend/src/components/TrendlineDrawingTool.tsx:74 | The toggle flips drawing mode and touches nothing else. |
| Trendlines.MouseDown | src/frontend/src/components/TrendlineDrawingTool.tsx:30-39 | In drawing mode a press starts a zero-length line at the point. Otherwise nothing happens. |
| Trendlines.MouseMove | src/frontend/src/components/TrendlineDrawingTool.tsx:41-49 | During a gesture the line's end follows the pointer. Otherwise nothing happens. |
| Trendlines.MouseUp | src/frontend/src/components/TrendlineDrawingTool.tsx:51-102 | Release ends the gesture and hands the line on exactly when it is longer than 20 pixels. |
| Trendlines.EventsPreserveConsistency | src/frontend/src/components/TrendlineDrawingTool.tsx:25-66 | No event breaks "drawing exactly when a line is in progress". |
| Trendlines.DrawGesture | src/frontend/src/components/TrendlineDrawingTool.tsx:30-66 | Press, drag and release in drawing mode add the line from press to release exactly when it is longer than 20 pixels. |
| Trendlines.NoDrawingOutsideMode | src/frontend/src/components/TrendlineDrawingTool.tsx:31 | Outside drawing mode a gesture adds nothing. |
| Winners.LoadProfiles | src/frontend/src/components/WinnersSection.tsx:17-36 | No actor or no winners gives no profiles. Otherwise there is one entry per winner, null where the lookup throws. |
| Winners.DisplayName | src/frontend/src/components/WinnersSection.tsx:113-120 | A name is shown exactly when the winner's profile has a non-empty one. |
| Winners.Abbreviate | src/frontend/src/components/WinnersSection.tsx:122-127 | The first 8 characters (or all, if fewer), then `...`, then the last 6 (or all), with the lengths adding up. |
| Winners.AbbreviationKeepsEnds | src/frontend/src/components/WinnersSection.tsx:122-127 | A principal of 14 characters or more shows its first 8 and last 6 around `...`. |
| Winners.PercentOfStart | src/frontend/src/components/WinnersSection.tsx:110 | The percentage is P&L relative to the 10000 starting balance. |
| Winners.DateMs | src/frontend/src/components/WinnersSection.tsx:111 | The date is the nanosecond timestamp in milliseconds. |
| Winners.SignPrefix | src/frontend/src/components/WinnersSection.tsx:147-154 | `+` exactly for non-negative P&L, and nothing otherwise. |
| Winners.ToRow | src/frontend/src/components/WinnersSection.tsx:108-116 | The row is up exactly for non-negative P&L, and its key is principal and timestamp. |
| Winners.SignMatchesTrend | src/frontend/src/components/WinnersSection.tsx:136-155 | Arrow, sign and percentage always agree, and zero counts as a gain. |
| Winners.WinnersSection | src/frontend/src/components/WinnersSection.tsx:38-84 | Skeleton exactly while loading, and the error card exactly on error. "No winners" for a missing or empty list, otherwise the table. |
| Winners.NewestFirst | src/frontend/src/components/WinnersSection.tsx:84 | The table lists the newest win first. |
| Winners.EveryWinnerListed | src/frontend/src/components/WinnersSection.tsx:84-108 | Every winner has a row. |
| Sorting.SortDesc | src/frontend/src/hooks/useLeaderboard.ts:39 | The sort returns a permutation of its input in descending key order. |
| Text.Contains | src/frontend/src/hooks/useTradingActions.ts:8-17 | The empty string is always included. An included string fits in the text, and each of its characters occurs there. |
| Text.Trim | src/frontend/src/components/RegistrationForm.tsx:21 | Trimming removes exactly the surrounding whitespace and nothing inside. |
| Text.TrimIdempotent | src/frontend/src/components/RegistrationForm.tsx:21-27 | Trimming twice is trimming once. |
| Text.Utf16Length | src/frontend/src/components/RegistrationForm.tsx:24 | A string's JavaScript length lies between its character count and twice that. |
| Text.Utf16LengthAppend | src/frontend/src/components/RegistrationForm.tsx:24-27 | Lengths in code units add up under concatenation. |
| Text.TrimUtf16Shorter | src/frontend/src/components/RegistrationForm.tsx:21-27 | Trimming never makes a string longer in code units. |
| Text.Utf16LengthBmp | src/frontend/src/components/RegistrationForm.tsx:24-27 | For text inside the Basic Multilingual Plane, the length in code units is the character count. |
| Text.PadStart | src/frontend/src/components/GameTimer.tsx:10 | Padding prepends the fill character up to the width and keeps the text as the suffix. |
| Text.NatToStringRoundTrip | src/frontend/src/components/GameTimer.tsx:10-21 | A number's decimal string reads back as the number. |

## Left out

- **Network and caching.** Network access, React Query caching, retries,
  refetch intervals, stale times and query invalidation are left out.
  Each fetch is reduced to its outcome, a `Response`.
- **Logging.** The `console.error` calls are left out. They have no effect
  on results.
- **Clock and randomness.** `Date.now()`, `new Date()` and `Math.random()`
  become parameters. The two instants `getNextResetTime` and
  `calculateTimeRemaining` each read are taken as one and the same `now`.
- **Number formatting.** IEEE-754 rounding, `parseFloat`,
  `toLocaleString` and `date-fns` are left out. Amounts are exact reals
  and an entered amount is an already-parsed `Num`. The `toFixed` of the
  trading panel's derived fields is JsValues.ToFixed on exact reals. Its
  rounding of binary fractions and its exponent form at 1e21 and above
  are not modelled.
- TradingPanel.ConversionRoundTrip: the conversions are inverse only up
  to the `toFixed` rounding of the derived field, not exactly. The
  bounds are stated; TradingPanel.RoundingBreaksExactRoundTrip shows the
  exact round trip failing.
- **Indicator timestamps.** The timestamps the indicator functions make up
  (`Date.now() - k * 60000`) are left out. The chart does not read them.
- **Indicator periods.** A period of 0, and a fast period above the slow
  one, are not modelled. Every caller passes the fixed periods
  14/12/26/9/20/50/100/200. In JavaScript a zero period would give
  NaN or Infinity.
- **Indicator policy.** Where the written description of the indicators
  differs from the code, the model follows the code. Examples are the
  saturated RSI of 100 - 100/101 and the NaN padding of the EMA.
- GameTimer.NextReset: the monthly and yearly resets are a parameter
  (`calendarBoundary`), because the Gregorian calendar arithmetic of
  `setUTCMonth` and `setUTCFullYear` is not modelled. Only the daily and
  weekly resets are stated.
- **Timestamps.** Day counts and timestamps are integers. A fractional
  `days` argument is not modelled.
- **Sort ties.** The contracts state the descending order and the
  permutation, but not the order among equal keys.
- **Ids and profiles.** Trendline ids are a parameter, because they come
  from `Date.now()` and `Math.random()`. The profile lookups of the
  winners card are the function `lookup`.
- **Liquidation.** The liquidation price is stored by the backend and
  never computed on the client, so it is not modelled.
- **Unresolved imports.** `TradingPanel.tsx` imports `parseBackendError`
  and `useICPPriceData`, which the hooks do not export. The panel is
  modelled with the exported `parseBackendError` logic and with the
  current price as its input. `PriceChart.tsx` also imports
  `useICPPriceData` (line 4) and calls `useICPPriceData('24h')` (line 11).
  The chart is modelled from a given price history, standing for
  `priceData.priceHistory`. `usePositions.ts` imports `LeveragedPosition`
  and `PositionType` from the backend declarations (line 5), which export
  neither, and calls `actor.getOpenPositions` (line 21), which the backend
  interface does not declare. The reply is therefore a parameter, and the
  form in which a direction arrives is unknown: Positions.WireDirection
  covers both the tagged object of `types/game.ts` and the enum string.
  `useTradingActions.ts` calls `actor.getOrCreateAccount()` (lines 35 and
  65), which the backend interface does not declare. It calls
  `actor.buyICP(amountUSD)` and `actor.sellICP(amountICP)` with one
  argument (lines 40 and 70), where the interface declares
  `(gameMode, amount, price)` (`backend.d.ts` lines 57 and 70).
  `RegistrationForm.tsx` imports `useRegisterUser` (line 8), but
  `useQueries.ts` exports only `useGetLeaderboard` and `useIsCallerAdmin`.
  The code does not fix what these calls do at run time. In
  TradingActions.TradeMutation, `accountFailure` and `tradeFailure` stand
  for their outcomes, and in Registration.HandleSubmit, `succeeds` does.
- **Position directions.** Positions.WithPnL and Positions.QueryPositions
  take positions whose direction is already decoded. That is the
  corrected behaviour. The query as written, with the raw tag, is
  Positions.QueryPositionsAsWritten.
- **Leverage actions.** `useLeverageActions.ts` is left out: each of its
  mutations throws an unconditional not-implemented error.
- **Presentation.** Layout, icons, skeleton shapes, CSS classes and
  Recharts rendering are left out. The components that only lay out data
  (`MACDChart`, `RSIChart`, `Leaderboard`, `Portfolio`, `Positions`,
  `TransactionHistory`, `RegistrationSuccess`, `GameModeSelector`,
  `MovingAverageToggles`, `App`) are not part of this model.
- **Liquidity ratio.** TradingMetrics.LiquidityRatio is `None` for a zero
  pool depth, where JavaScript shows `Infinity` or `NaN`. This is a
  modelling choice, not a weaker promise.
- **Whitespace.** `String.prototype.trim` is modelled with the ECMAScript
  whitespace and line-terminator set. No Unicode normalisation is
  modelled.
- **String lengths.** A Dafny character is a Unicode scalar value. Name
  validation counts UTF-16 code units with Text.Utf16Length, as
  JavaScript does. Text.Take, Text.TakeLast and Text.PadStart count
  characters; they are only applied to digits and principal text, where
  the two counts agree. Lone surrogates cannot be represented.

## Findings

| source | as written | input that shows it | evidently intended | confidence | as-written member | corrected member |
|---|---|---|---|---|---|---|
| src/frontend/src/hooks/usePositions.ts:25 | `isLong` compares the direction with the string enum value `'long'` by strict equality. The position type in types/game.ts:36 declares the direction as a tagged object (`{ __kind__: 'long' }`), which is never equal to a string, so such a position is priced as a short. The run-time encoding is not fixed by the code: the backend declarations export no position type and no `getOpenPositions`. If directions arrive as enum strings the code is right, as Positions.AsWrittenAgreesOnEnumStrings shows. | A long of 10 ICP at leverage 5, entered at 100 with the price at 110, shows -500 instead of +500. | A long position's P&L rises with the price, whichever encoding arrives. | not executed | Positions.UnrealizedPnLAsWritten in Positions.QueryPositionsAsWritten (exhibited by Positions.LongTagValuedAsShort, Positions.LongTagSignLost and Positions.QueryLongTagDiffers) | Positions.UnrealizedPnLDecoded, and Positions.QueryPositions on the decoded reply |
| src/frontend/src/utils/technicalIndicators.ts:105-108 | The signal line is the EMA of the whole MACD line, including its NaN warm-up prefix. The seed average therefore includes NaN, so the signal line and histogram are NaN at every index. The chart then shows them as 0. | Any history of at least 26 prices, for example 26 prices of 1.0, gives signal 0 and histogram 0 at every chart point. | The signal line is the 9-period EMA of the defined part of the MACD line, defined from index slow + signal - 2 on. | not executed | Indicators.MacdSignalAbsent (chart effect PriceChart.ChartSignalAlwaysZero) | Indicators.MacdCorrected with Indicators.MacdCorrectedSignalDefined |
