# Rust Trader — a Dafny model of the trading core

Rust Trader is an autonomous crypto-futures trading bot for the OKX exchange.
A language model suggests a decision each cycle. The bot then validates it,
sizes it with a half-Kelly rule, places orders and reports to DingTalk. This
project models the parts of the bot that decide and compute, and proves
properties of them:

- **trader.dfy** (`Trader`, from `src/main.rs`):
  - the position sizer `calculate_position_size_kelly`;
  - the win-rate soft cap with its Kelly recomputation;
  - the drawdown alert;
  - the 60-second websocket-price freshness rule;
  - the volatility-paced rest interval;
  - order planning per action;
  - the bounded retry loops (10 order attempts, 5 baseline attempts);
  - the startup sequence.
- **executor.dfy** (`Executor`, from `executor.rs`):
  - the instrument-metadata cache and its defaults;
  - lot alignment and price precision;
  - the three-attempt signed-request machine;
  - bracket prices;
  - the zero-size and dry-run guards of `execute_order`;
  - the position, balance and bill parsers.
  - `decimal.dfy` (`Decimal`) holds the fixed-decimal rendering these use: `{:.*}` as a value with a scale, and `ceil(|log10 x|)` without logarithms.
- **brain.dfy** (`Brain`, from `llm.rs`):
  - stripping the `<think>` block;
  - the three JSON candidates of `extract_json`;
  - action mapping, percent rescaling, the take-profit floor and leverage clamping;
  - the Kelly fraction and the forced HOLD.
- **indicators.dfy** (`Indicators`, from `math.rs`): RSI, ATR and EMA as loops, each proved equal to a recursive definition, and the trend label.
- **market.dfy** (`Market`, from `structs.rs`): the kline price accessors, the context labels and the 2000-character truncation.
- **price_feed.dfy** (`PriceFeed`, from `ws_client.rs`): the subscribe message, the price cache updated in place per ticker item, and the reconnect loop over a finite list of connection rounds.
- **notifier.dfy** (`Notifier`, from `notifier.rs`):
  - keyword attachment and the signed webhook URL;
  - the send guard;
  - the trade-signal colour and planned prices;
  - the position lists of the reports.
- **news.dfy** (`News`, from `news.rs`): headline extraction from the RSS text and the numbered digest.
- **reddit.dfy** (`Reddit`, from `reddit.rs`):
  - the hot-posts listing;
  - the OAuth token cache with its 60-second margin;
  - the fallback from OAuth to the public endpoint.
- **scanner.dfy** (`Scanner`, from `scanner.rs`): pump detection and the lesson stored for a missed opportunity.
- **pnl_monitor.dfy** (`PnlMonitor`, from `pnl_monitor.rs`): the realized-PnL back-fill, as an in-place update of a trade-log table.
- **Helper modules:**
  - `base.dfy` has `Option`/`Result` and real-arithmetic lemmas;
  - `text.dfy` has substring search, split, replace, trim, ASCII case mapping and decimal rendering of naturals;
  - `json.dfy` has an abstract JSON value with serde-style indexing, plus a record of the library codecs (parse, serialize, number parsing) that the model takes as parameters.

Amounts are `f64` in the bot and exact `real` here. Text is `seq<char>`.
Library parsing and formatting — JSON, number parsing, `Display` of floats,
HMAC, base64 — reach the model as function parameters. HTTP exchanges, the
database and clocks reach it as values: the outcome of each attempt, the
failing statement, the current time.

## Model

| member | source | states |
|---|---|---|
| Trader.ActualPctCases | src/main.rs:35-36 | The order percentage is the cap when half-Kelly exceeds it, 0.01 when half-Kelly is below 0.01, and half-Kelly otherwise; with a cap of at least 0.01 it lies between 0.01 and the cap |
| Trader.ActualPctFloorAboveSmallCap | src/main.rs:35-36 | A cap of 0.005 with Kelly 0.005 gives 0.01, above the cap: the 0.01 floor applies whenever half-Kelly does not exceed the cap |
| Trader.Margin | src/main.rs:51-55 | The margin never exceeds a nonnegative available balance |
| Trader.PositionSizeZeroGates | src/main.rs:38-49 | Size is 0 when price times face value is 0, or when the available balance is below the margin of one minimum lot |
| Trader.PositionSizeUnknownSymbol | src/main.rs:38-41 | A symbol missing from the instrument cache (face value 0) always sizes to 0 |
| Trader.PositionSizeCappedMargin | src/main.rs:51-62 | When equity times the percentage exceeds the available balance, a nonzero size is the contracts for exactly 0.95 of it, bumped to the minimum lot |
| Trader.PositionSizeNonzero | src/main.rs:57-69 | A nonzero size is at least the minimum lot and its margin cost is within the available balance |
| Trader.OrderCostOfMargin | src/main.rs:57-64 | The cost of the contracts bought with a margin is that margin |
| Trader.PositionSizeSpendsMargin | src/main.rs:57-64 | A size above the minimum-lot bump spends exactly the chosen margin |
| Trader.PositionSizeExample | src/main.rs:25-70 | Equity 10000, available 9000, Kelly 0.30, cap 0.20, leverage 5, price 100, face 1, minimum 1 gives 75 contracts |
| Trader.PositionSizeKelly | src/main.rs:25-70 | The step-by-step sizer returns the sizing function's value, including both early zero returns |
| Trader.ContractsWithin | src/main.rs:57-69 | The contracts for a margin, bumped to the minimum lot and dropped to 0 when unaffordable; a nonzero result is at least the minimum and affordable |
| Trader.CapWinRate | src/main.rs:308-315 | The cap changes only the win rate and the Kelly fraction, and either returns the decision unchanged or leaves a win rate of at most 0.75 |
| Trader.CapWinRateCases | src/main.rs:308-315 | A win rate of at most 0.75 is untouched; above it the rate becomes 0.75 and Kelly 0.75 − 0.25/b, or 0 when b ≤ 0 |
| Trader.KellyIncreasing | src/main.rs:312-314 | For a positive payoff ratio, Kelly strictly increases with the win rate |
| Trader.CapWinRateLowersKelly | src/main.rs:308-315 | Capping a consistent decision strictly lowers its Kelly fraction |
| Trader.CappedKellyCanBeNegative | src/main.rs:308-318 | Win rate 0.9 at b = 0.2 has Kelly 0.4, the cap turns it into −0.5, and the sizer still orders the 0.01 floor: the cap does not re-apply the forced HOLD |
| Trader.MaxDrawdownSetting | src/main.rs:103 | A missing or unparseable drawdown setting reads as 0.10 |
| Trader.DrawdownAlertIff | src/main.rs:213-220 | The alert (positive initial capital and equity, drawdown ratio strictly above the limit) fires iff equity is strictly below initial·(1 − limit) |
| Trader.CycleBalance | src/main.rs:208-211 | A failed balance fetch reads as equity and available balance both 0 |
| Trader.NoAlertWithoutBalance | src/main.rs:208-220 | A cycle whose balance fetch fails never raises the drawdown alert |
| Trader.RoutedDecision | src/main.rs:302-315 | Buy and Sell go through the win-rate cap; every other action is used unchanged; action and leverage are never changed |
| Trader.DrawdownAlertText | src/main.rs:213-218 | An alert message exists iff the drawdown test holds |
| Trader.CycleStep | src/main.rs:208-345 | A cycle raises the alert iff the drawdown test holds on the fetched (or zeroed) equity |
| Trader.AlertDoesNotGateOrders | src/main.rs:213-345 | The planned order is the same for any baseline and drawdown limit: the alert never halts the order logic that follows it |
| Trader.AlertedCycleStillCloses | src/main.rs:213-360 | With the alert raised, a CloseLong with a held long still sells its whole size |
| Trader.AlertedCycleStillOpens | src/main.rs:213-345 | With the alert raised, a Buy or Sell that sizes positively still places its order at the decision's leverage |
| Trader.EffectivePrice | src/main.rs:276-283 | The cached websocket price replaces the REST price iff an entry exists and its age is strictly below 60 seconds |
| Trader.EffectivePriceBoundary | src/main.rs:278 | An entry exactly 60 seconds old is stale |
| Trader.MaxAtrPct | src/main.rs:253-274 | The heartbeat maximum is at least 0, is at least every priced symbol's ATR percentage, and is one of them unless 0 |
| Trader.SaturatingU64 | src/main.rs:397 | The cast of a nonnegative value to u64 truncates toward zero below u64::MAX and gives u64::MAX from there up |
| Trader.AdjustedRest | src/main.rs:394-397 | The volatility-adjusted rest is never under 60 seconds |
| Trader.RestSecondsExamples | src/main.rs:394-400 | Base 1800 s gives 900 s at ATR 1.0 %, 3600 s at 0.1 %, and 1800 s at 0 |
| Trader.RestSecondsBounds | src/main.rs:394-400 | With volatility, the rest lies between 60 s and max(2·base, 60) s |
| Trader.RestSecondsMonotone | src/main.rs:394-400 | Higher volatility never lengthens the rest |
| Trader.FindPosition | src/main.rs:290-291 | The first position of the symbol and side with positive size, or none iff no such position exists |
| Trader.PlanOrderOpens | src/main.rs:304-345 | Buy/Sell place an order iff the size is positive: buy/long or sell/short, at the size, price and percentages of the decision |
| Trader.PlanOrderCloses | src/main.rs:347-375 | CloseLong sells the long position's size when one is held, CloseShort buys back the short, and Hold orders nothing |
| Trader.ClosingOrdersHaveNoBracket | src/main.rs:347-374 | Closing orders carry take-profit and stop-loss 0, so no bracket is attached |
| Trader.RetryUntilOk | src/main.rs:326-344 | The retry loop stops at the first success; every earlier attempt failed; it sleeps once per failure; with no success it makes all attempts |
| Trader.RetryAllFail | src/main.rs:326-344 | When every attempt fails, all attempts are made and every one is followed by a sleep |
| Trader.OrderSizeTooSmallEveryAttempt | src/main.rs:326-344 | A size that prints as 0 makes the order call fail with the size error whatever the exchange replies |
| Trader.OrderSizeTooSmallExhaustsRetries | src/main.rs:326-344 | With such a size every attempt returns the same SizeTooSmall error, so the order loop makes all ten attempts, sleeps 1 s after each, and places no order |
| Trader.EstablishBaseline | src/main.rs:147-159 | At most 5 fetches; the first success sets the baseline to its total equity; when all fail the baseline stays 0; the result equals the baseline function BaselineFrom |
| Trader.BaselineFromSkips | src/main.rs:147-159 | Failed fetches before an attempt leave the baseline to be decided from that attempt on |
| Trader.Start | src/main.rs:139-164 | A failed instrument load aborts startup with its error and leaves the cache; a good load starts the agent with the cache built from the instrument list and the baseline of the five-attempt loop (the first successful equity, else 0), and the critical alert is raised iff that baseline is 0 |
| Executor.FaceValue | src/modules/action/executor.rs:184-187 | A cached symbol's face value, or 0 for an unknown symbol |
| Executor.MinSize | src/modules/action/executor.rs:189-192 | A cached symbol's minimum size, or 1 for an unknown symbol |
| Executor.AlignedSizeBounds | src/modules/action/executor.rs:197-200 | The lot count is the floor of (size + 1e-9)/lot, the aligned size is at most size + 1e-9, and both are nonnegative for a nonnegative size |
| Executor.AlignedSizeIdempotent | src/modules/action/executor.rs:198-200 | For a lot above 1e-9, aligning an aligned size returns it |
| Executor.FormatSz | src/modules/action/executor.rs:194-210 | An unknown symbol or a lot of at most 0 prints the size as is; otherwise the aligned size with the lot's decimal count |
| Executor.SizeDecimalsOfPowerOfTen | src/modules/action/executor.rs:202-204 | A lot of 10^-k prints with k decimals |
| Executor.FormatSzExactForDecimalLots | src/modules/action/executor.rs:197-206 | For lots of the form 10^-k the printed size is exactly the aligned size |
| Executor.RoundedLotsZeroIff | src/modules/action/executor.rs:197-206 | The printed size rounds to 0 iff the lot count is 0 |
| Executor.FormatSzExample | src/modules/action/executor.rs:197-206 | Lot 0.01 and size 0.127 print as 0.12 |
| Executor.FormatSzZeroIff | src/modules/action/executor.rs:285-288 | For a known symbol with a positive lot, the zero-size guard trips iff no whole lot fits |
| Executor.FormatSzUnknownSymbol | src/modules/action/executor.rs:209 | An unknown symbol's size prints as its own value, so the guard trips only for size 0 |
| Executor.FallbackPriceDecimals | src/modules/action/executor.rs:220 | Without a tick size, prices print with 6, 4, 3 or 2 decimals below 0.01, below 1, below 10 and otherwise |
| Executor.FormatPrice | src/modules/action/executor.rs:212-222 | A price prints with the tick's decimal count when the tick is positive, otherwise with the fallback count |
| Executor.FormatPriceError | src/modules/action/executor.rs:212-222 | The printed price is within half a unit of its last decimal of the price |
| Executor.FormatPriceIdempotentWithTick | src/modules/action/executor.rs:212-218 | Formatting a formatted price again gives the same text |
| Executor.Classify | src/modules/action/executor.rs:124-146 | A network error or a non-2xx status retries; a 2xx status ends the loop |
| Executor.ClassifySuccessIff | src/modules/action/executor.rs:129-136 | A 2xx reply is Ok iff its body parses and its code is the text "0" |
| Executor.RunFromBounds | src/modules/action/executor.rs:109-148 | The loop makes 1 to 3 attempts, every attempt before the last one made was retried, the run ends with the last attempt's settled outcome or a request failure after retrying the third, and it slept 500·j ms after each retried attempt j |
| Executor.RunFromSettlesAt | src/modules/action/executor.rs:109-148 | When attempts before j were retried and attempt j gets a 2xx answer, the run returns that answer's result after j attempts and the back-off of the retries, for any j from 1 to 3 |
| Executor.BusinessErrorIsTerminal | src/modules/action/executor.rs:129-136 | A 2xx reply with a bad code is returned at once, after one attempt and no sleep |
| Executor.TransportFailuresExhaust | src/modules/action/executor.rs:109-148 | Three retryable outcomes give a request failure after 3 attempts and 500 + 1000 + 1500 ms of sleep |
| Executor.CacheOfKeys | src/modules/action/executor.rs:157-178 | The rebuilt cache has a key iff some item carries that nonempty instrument id |
| Executor.CacheOfLastWins | src/modules/action/executor.rs:164-176 | For an id repeated in the response, the entry comes from its last item |
| Executor.PositionOf | src/modules/action/executor.rs:247-259 | A missing side reads "net", a missing leverage 1, a missing instrument "" |
| Executor.PositionsOfFilter | src/modules/action/executor.rs:241-263 | Positions drop exactly the entries of size 0 and keep every other one |
| Executor.KeptIndicesSelect | src/modules/action/executor.rs:241-263 | Listed position k is the parsed item at kept index k |
| Executor.KeptIndicesIncreasing | src/modules/action/executor.rs:241-263 | The kept indices strictly increase and are exactly the items of non-zero size |
| Executor.PositionsOfOrder | src/modules/action/executor.rs:241-263 | Positions keep response order and multiplicity: each item of non-zero size appears once, at its place in the response |
| Executor.RequiredF64 | src/modules/action/executor.rs:232-233 | A missing balance field reads as 0; a present one that does not parse is an error |
| Executor.BracketPrices | src/modules/action/executor.rs:298-319 | A bracket is attached iff tp > 0, sl > 0 and both of the side's prices (long: p(1+tp) and p(1−sl); other sides the inverse) are positive; it then lies around the price |
| Executor.BracketBeyondUnitPercent | src/modules/action/executor.rs:298-319 | A long at 100 with tp 1.5 and sl 0.5 attaches (250, 50); the short with the same percentages attaches nothing |
| Executor.BracketAttachedInRange | src/modules/action/executor.rs:298-319 | At a positive price with both percentages in (0, 1), the bracket is always attached |
| Executor.NoBracketWithoutBoth | src/modules/action/executor.rs:298 | A take-profit or stop-loss of at most 0 attaches no bracket |
| Executor.TradeExecutor.constructor | src/modules/action/executor.rs:74-88 | Defaults from the environment: the OKX base URL, empty credentials, simulated and dry-run iff their variable is "1", and an empty cache |
| Executor.TradeExecutor.SignedRequest | src/modules/action/executor.rs:93-123 | The request goes to base URL + path with the key, passphrase and the call's timestamp; its signature is the HMAC over timestamp ++ method ++ path ++ body, the body being "" for GET; GET sends no body and POST sends the call's |
| Executor.TradeExecutor.GetSignsEmptyBody | src/modules/action/executor.rs:104-107 | A GET signs timestamp ++ "GET" ++ path, whatever body the call carries |
| Executor.TradeExecutor.SendSignedRequest | src/modules/action/executor.rs:102-149 | Sends the same signed request on every attempt, 1 to 3 of them, with the outcome of the retry machine |
| Executor.TradeExecutor.InitInstrumentsCache | src/modules/action/executor.rs:154-182 | A failed fetch leaves the cache untouched; a successful one replaces it with the entries of the response |
| Executor.TradeExecutor.FetchAccountSummary | src/modules/action/executor.rs:228-239 | The balance of the first account entry, or the request error |
| Executor.TradeExecutor.FetchPositions | src/modules/action/executor.rs:241-263 | The filtered positions of the response, or the request error |
| Executor.TradeExecutor.FetchRecentPnl | src/modules/action/executor.rs:335-352 | The bill records of the response in order, or the request error |
| Executor.TradeExecutor.ExecuteOrder | src/modules/action/executor.rs:265-333 | The leverage call goes first; a size that prints as 0 fails without an order; dry run returns "dry-run" without an order; otherwise one order carrying the bracket when it applies |
| Decimal.FormatFixedError | src/modules/action/executor.rs:206 | `{:.d}` printing is within half a unit of the last printed decimal |
| Decimal.FormatFixedIdempotent | src/modules/action/executor.rs:217 | Reprinting a printed value with the same decimals gives the same text |
| Decimal.FormatFixedExact | src/modules/action/executor.rs:206 | A whole number of units of 10^-d prints exactly |
| Decimal.FormatFixedSign | src/utils/notifier.rs:231 | A negative printed mantissa comes only from a negative value, and a negative value never prints a positive mantissa |
| Decimal.FormatFixedText | src/utils/notifier.rs:231 | `{:.d}` text starts with "-" iff the value is negative, even when the digits round to zero; a nonnegative value prints its rounded mantissa |
| Decimal.SmallLossKeepsSign | src/utils/notifier.rs:231 | −0.001 prints as "-0.00" at two decimals and 0.001 as "0.00" |
| Decimal.RoundHalfEven | src/modules/action/executor.rs:206 | Rounding to a whole unit moves at most one half and leaves whole values alone |
| Decimal.LogDecimals | src/modules/action/executor.rs:216 | ceil(abs(log10 x)): for x < 1 the least k with x·10^k ≥ 1, for x ≥ 1 the least k with x ≤ 10^k |
| Decimal.LogDecimalsOfPowerOfTen | src/modules/action/executor.rs:216 | A tick of 10^-k gives k decimals |
| Brain.ActionName | src/modules/brain/llm.rs:45-53 | Every action has a nonempty label |
| Brain.ActionNameInjective | src/modules/brain/llm.rs:45-53 | Distinct actions have distinct labels |
| Brain.CleanReasoningWithoutTags | src/modules/brain/llm.rs:154-167 | Text lacking either tag is returned unchanged |
| Brain.CleanReasoningRemovesBlock | src/modules/brain/llm.rs:154-167 | With both tags in order, the result is the text before the first opening tag followed by the text after the first closing tag |
| Brain.CleanReasoningOutOfOrder | src/modules/brain/llm.rs:154-167 | A closing tag before the opening tag leaves the opening tag in the text and shortens nothing |
| Brain.JsonCandidates | src/modules/brain/llm.rs:169-190 | One to three candidates, the first being the whole cleaned text |
| Brain.FirstParse | src/modules/brain/llm.rs:169-190 | No value iff no candidate parses |
| Brain.ExtractJsonIsFirstParse | src/modules/brain/llm.rs:169-190 | `extract_json` returns the first candidate that parses, whole text before fenced block before braced span, and an error iff none parses |
| Brain.FencedTextShape | src/modules/brain/llm.rs:172-180 | The fenced candidate exists iff a closing fence follows the opening one, and is the text up to it |
| Brain.BracedTextShape | src/modules/brain/llm.rs:181-188 | The braced candidate runs from the first '{' to the last '}', only when the last '}' comes after the first '{' |
| Brain.RequestedActionExamples | src/modules/brain/llm.rs:236-243 | "Buy" maps to Buy and "open_short" to Sell after upper-casing; a missing action is Hold |
| Brain.RescalePct | src/modules/brain/llm.rs:245-250 | A value above 1 is divided by 100 once; others are kept |
| Brain.RescalePctRange | src/modules/brain/llm.rs:245-250 | The result is a fraction in [0, 1] iff the input was in [0, 100] |
| Brain.FloorTakeProfit | src/modules/brain/llm.rs:253-255 | For Buy/Sell a take-profit below 0.005 becomes 0.008, so it is at least 0.005; otherwise it is unchanged |
| Brain.SaturatingU32 | src/modules/brain/llm.rs:257-258 | The cast to u32 truncates in range, gives 0 at or below 0 and u32::MAX at or above 2^32 |
| Brain.RawLeverage | src/modules/brain/llm.rs:257 | The requested leverage fits in u32 |
| Brain.ClampLeverageBounds | src/modules/brain/llm.rs:258 | Leverage ends in [1, cap] and an in-range request is kept |
| Brain.RawLeverageExamples | src/modules/brain/llm.rs:257-258 | A missing leverage, and one that overflows u32, both end as 1 |
| Brain.KellyPositiveIff | src/modules/brain/llm.rs:262 | For b > 0, Kelly is positive iff p·b > 1 − p |
| Brain.KellyDefault | src/modules/brain/llm.rs:260-262 | The defaults p = 0.5, b = 1.5 give Kelly 1/6 |
| Brain.FinalActionAndKelly | src/modules/brain/llm.rs:263-268 | An open action with Kelly ≤ 0 becomes Hold with 0; Kelly is never negative, and positive for every open action |
| Brain.ParseDecision | src/modules/brain/llm.rs:234-281 | An extraction failure is an error; otherwise a decision whose fields follow the rules above, with Kelly ≥ 0, positive for Buy/Sell, a floored take-profit and leverage in [1, cap] |
| Indicators.Closes | src/modules/perception/math.rs:7 | One close per kline, in order |
| Indicators.CalculateRsi | src/modules/perception/math.rs:32-57 | The loop computes the smoothed RSI definition; the value lies in [0, 100] and is 50 with fewer than period + 1 prices |
| Indicators.RsiRange | src/modules/perception/math.rs:32-57 | RSI is in [0, 100], is 50 with fewer than period + 1 prices, and is 100 iff the average loss is 0 |
| Indicators.RsiOfRange | src/modules/perception/math.rs:54-56 | RSI is 100 when the average loss is 0, otherwise in [0, 100) |
| Indicators.TrueRange | src/modules/perception/math.rs:68-70 | The true range is the largest of high − low, abs(high − prev close) and abs(low − prev close), hence ≥ 0 |
| Indicators.TrSum | src/modules/perception/math.rs:66-71 | The running true-range sum stays ≥ 0 |
| Indicators.AtrNonnegative | src/modules/perception/math.rs:59-75 | ATR is never negative, and is 0 with fewer than period + 1 bars |
| Indicators.TrSumPrefix | src/modules/perception/math.rs:66-71 | The true-range sum over the first bars ignores later bars |
| Indicators.AtrIgnoresLaterBars | src/modules/perception/math.rs:59-75 | ATR depends only on bars 0..=period; appending bars leaves it unchanged |
| Indicators.CalculateAtr | src/modules/perception/math.rs:59-75 | The loop computes the ATR definition (0 with fewer than period + 1 bars), which is ≥ 0 |
| Indicators.Smoothing | src/modules/perception/math.rs:80 | The EMA weight 2/(period + 1) is in (0, 1] |
| Indicators.EmaAppend | src/modules/perception/math.rs:88-90 | Once seeded, each further price moves the EMA one step toward it |
| Indicators.EmaStepBounds | src/modules/perception/math.rs:88-90 | One EMA step stays between bounds that hold the previous EMA and the price |
| Indicators.EmaFoldBounds | src/modules/perception/math.rs:88-90 | The EMA over a series stays within any bounds of the seed and the prices |
| Indicators.EmaWithinRange | src/modules/perception/math.rs:78-92 | The EMA of a nonempty series lies within the series' bounds |
| Indicators.EmaOfConstant | src/modules/perception/math.rs:82-90 | The EMA of a constant series is that constant |
| Indicators.CalculateEma | src/modules/perception/math.rs:78-92 | The loop computes the EMA definition: the last price (0 if none) below period prices, else the SMA seed folded over the rest |
| Indicators.SumPrices | src/modules/perception/math.rs:82 | The seed loop sums the first period prices |
| Indicators.FoldPrices | src/modules/perception/math.rs:88-90 | The update loop folds the prices after the seed |
| Indicators.TrendIff | src/modules/perception/math.rs:14-20 | Bullish iff EMA20 > EMA50, Bearish iff EMA20 < EMA50, Neutral iff equal |
| Indicators.Analyze | src/modules/perception/math.rs:6-29 | RSI14, ATR14, EMA20, EMA50 and the trend of the closes, with RSI in [0, 100] and ATR ≥ 0 |
| Market.ClosePrice | src/modules/perception/structs.rs:72-74 | The close price, or 0 when its text does not parse |
| Market.HighPrice | src/modules/perception/structs.rs:75-77 | The high price, or 0 when its text does not parse |
| Market.LowPrice | src/modules/perception/structs.rs:78-80 | The low price, or 0 when its text does not parse |
| Market.RsiLabelIff | src/modules/perception/structs.rs:30-32 | Overbought iff RSI > 70, Oversold iff RSI < 30, Neutral on [30, 70] |
| Market.EmaLabelIff | src/modules/perception/structs.rs:34 | "Above short-term trend" iff price > EMA20 strictly |
| Market.FundingLabelIff | src/modules/perception/structs.rs:36-39 | High positive iff the rate is above 0.0001 (0.01 %), high negative iff below −0.0001, else neutral |
| Market.ContextEndsWithSocialPrefix | src/modules/perception/structs.rs:54-55 | The context ends with the first 2000 characters of the Reddit text, a prefix that is the whole text when it is short enough |
| Market.ContextContainsNewsPrefix | src/modules/perception/structs.rs:54-55 | The context contains the first 2000 characters of the news text |
| PriceFeed.SubscribeMessage | src/modules/perception/ws_client.rs:41-51 | Op "subscribe" with one tickers argument per symbol, in symbol order |
| PriceFeed.TickOf | src/modules/perception/ws_client.rs:64-65 | An item carries a tick iff instId and last are text and last parses |
| PriceFeed.LastTick | src/modules/perception/ws_client.rs:61-69 | The tick for a key is one an item carries, and none iff no item carries one |
| PriceFeed.ApplyItemsAt | src/modules/perception/ws_client.rs:61-69 | After a message, each key holds its last item's price at the handling time; unmentioned keys are unchanged |
| PriceFeed.ApplyText | src/modules/perception/ws_client.rs:61-69 | A frame that is not JSON, or has no data array, changes nothing |
| PriceFeed.TickerClient.constructor | src/modules/perception/ws_client.rs:19-23 | The client starts from the shared cache |
| PriceFeed.TickerClient.HandleItems | src/modules/perception/ws_client.rs:63-67 | The item loop upserts the cache as the message definition says |
| PriceFeed.TickerClient.HandleText | src/modules/perception/ws_client.rs:60-71 | A text frame updates the cache as its definition says |
| PriceFeed.TickerClient.ReadLoop | src/modules/perception/ws_client.rs:58-80 | Frames are handled up to the first read error or the end of the stream, and only those change the cache |
| PriceFeed.FramesReadExact | src/modules/perception/ws_client.rs:73-78 | The read loop's count is the position of the first read error |
| PriceFeed.TickerClient.Run | src/modules/perception/ws_client.rs:25-88 | An invalid URL does nothing; each opened connection sends the subscribe message; the cache follows the subscribed rounds; every round but a failed subscribe pauses 5 s |
| PriceFeed.PausedSeconds | src/modules/perception/ws_client.rs:53-56 | The pause total is a multiple of 5 s, at most 5 s per round |
| PriceFeed.CountConnectFailed | src/modules/perception/ws_client.rs:82-86 | At most one connect failure per round |
| PriceFeed.UnsubscribedRoundsKeepCache | src/modules/perception/ws_client.rs:25-88 | Rounds that never subscribe leave the cache as it was |
| Notifier.ConfigOf | src/utils/notifier.rs:29-36 | A missing webhook or secret is empty, and a missing keyword is "Trading" |
| Notifier.AttachKeywordContains | src/utils/notifier.rs:65-73 | The content is a prefix of the result; a nonempty keyword is in the result; the result is the content iff the keyword is empty or already present |
| Notifier.AttachKeywordIdempotent | src/utils/notifier.rs:65-73 | Attaching twice is the same as attaching once |
| Notifier.AppendQueryShape | src/utils/notifier.rs:58-62 | Query parameters follow '&' when the URL has a '?', else '?' |
| Notifier.SignedUrlShape | src/utils/notifier.rs:38-63 | Without a secret the URL is the webhook; with one it is the webhook, then '&' if it already has a query and '?' otherwise, then "timestamp=<ts>&sign=<s>", where s signs ts ++ "\n" ++ secret with the secret as key |
| Notifier.Send | src/utils/notifier.rs:75-94 | Nothing is posted iff the webhook is empty; otherwise the body goes to the signed URL, which extends the webhook |
| Notifier.AlertCarriesKeyword | src/utils/notifier.rs:96-107 | An alert with a nonempty keyword carries the keyword in its text |
| Notifier.SignalColor | src/utils/notifier.rs:121-125 | Green iff the lower-cased action contains "buy" or "long", red otherwise |
| Notifier.PlannedPricesBracket | src/utils/notifier.rs:127-131 | With positive percentages a buy's take-profit is above the price and its stop below, any other action the other way round; zero percentages put both at the price |
| Notifier.OpenCardColors | src/utils/notifier.rs:121-131 | "buy" is green and priced as a buy; "sell" is red and priced as a sell |
| Notifier.CloseLongCardColor | src/utils/notifier.rs:121-131 | "CLOSE LONG" is green yet not priced as a buy |
| Notifier.CloseShortCardColor | src/utils/notifier.rs:121-131 | "CLOSE SHORT" is red and not priced as a buy |
| Notifier.SendTradeSignal | src/utils/notifier.rs:109-151 | Nothing is posted iff the webhook is empty |
| Notifier.SymbolBase | src/utils/notifier.rs:173 | The symbol text before its first '-': a dash-free prefix, followed by '-' when shorter |
| Notifier.PositionLineShape | src/utils/notifier.rs:170-178 | Each position line starts with "-" and names the symbol base |
| Notifier.PositionLinesStart | src/utils/notifier.rs:165-179 | A nonempty list renders starting with "-" |
| Notifier.PositionLinesNameEach | src/utils/notifier.rs:165-179 | The list names every position's symbol base |
| Notifier.PositionDescFlatIff | src/utils/notifier.rs:162-163 | The Flat line appears iff the list is empty, and every position is named otherwise |
| Notifier.SignedFigure | src/utils/notifier.rs:205-233 | The return figure starts with "+" iff the value is nonnegative and with "-" iff it is negative, also when it rounds to "0.00" |
| Notifier.UplFigure | src/utils/notifier.rs:167-223 | At startup the PnL reads "+$…" for a gain and "$-…" for a loss; in the status report "$…" with "-" after the dollar iff the PnL is negative |
| Notifier.SmallLossFigures | src/utils/notifier.rs:167-233 | A loss of 0.001 shows the loss colour and "-0.00", "$-0.00" in both reports |
| Notifier.UplCellShape | src/utils/notifier.rs:167-217 | The PnL cell has the loss colour iff the PnL is negative, followed by the signed figure |
| Notifier.PositionLineShowsUpl | src/utils/notifier.rs:165-224 | Every position entry of both reports contains its coloured, signed PnL cell |
| Notifier.StatusReportShowsReturn | src/utils/notifier.rs:205-233 | The status report contains the return cell, with the loss colour iff the return is negative and "-" iff negative, "+" iff nonnegative |
| Notifier.DescribePositions | src/utils/notifier.rs:161-180 | The push loop yields PositionDesc: the Flat line iff there are no positions, otherwise each entry in order with its signed PnL cell |
| Notifier.SendStartupReport | src/utils/notifier.rs:153-196 | Posts the boot report (capital, start time, position entries with sign-preserving PnL) under the keyword rule, nothing iff the webhook is empty |
| Notifier.SendStatusReport | src/utils/notifier.rs:198-238 | Posts the status report (equity, signed coloured return, position entries) under the keyword rule, nothing iff the webhook is empty |
| News.Items | src/modules/perception/news.rs:38-42 | The segments after the first "<item>", in feed order, as many as there are up to 15 |
| News.ItemsEmptyIff | src/modules/perception/news.rs:38-42 | There are no items iff the feed has no "<item>" |
| News.TitleAsWrittenPanics | src/modules/perception/news.rs:43-45 | The slice as written panics on "</title><title>x" |
| News.TitleAsWrittenPanicIff | src/modules/perception/news.rs:43-45 | The slice as written panics exactly when the first "</title>" stands before the first "<title>" |
| News.TitleOf | src/modules/perception/news.rs:43-45 | A title is text between an opening tag and a closing tag after it |
| News.TitleOfAgrees | src/modules/perception/news.rs:43-45 | Wherever the written slice does not panic, the corrected title is the same |
| News.CleanTitle | src/modules/perception/news.rs:46-49 | The cleaned title has no surrounding whitespace |
| News.HeadlineOf | src/modules/perception/news.rs:43-50 | A headline is never empty |
| News.HeadlinesOf | src/modules/perception/news.rs:38-52 | At most one headline per segment, none empty |
| News.ExtractHeadlines | src/modules/perception/news.rs:38-52 | The extraction loop yields the headlines of the examined segments, at most 15 |
| News.CollectHeadlines | src/modules/perception/news.rs:39-51 | The push loop collects one headline per segment with a nonempty title |
| News.ExtractHeadline | src/modules/perception/news.rs:43-50 | One segment's headline, never empty |
| News.NumberedLinesStart | src/modules/perception/news.rs:59-62 | The numbered list starts with "1. " and the first headline |
| News.RenderShape | src/modules/perception/news.rs:54-62 | No headlines gives "No news headlines found."; otherwise the header then "1. " and the first headline |
| News.RenderHeadlines | src/modules/perception/news.rs:54-62 | The push loop renders the digest its definition states |
| News.Digest | src/modules/perception/news.rs:34-36 | Empty content gives "No news available (Network Error)" |
| News.FetchRawHeadlines | src/modules/perception/news.rs:34-63 | The digest of the response text |
| Reddit.PostLinesEmptyIff | src/modules/perception/reddit.rs:73-82 | The bullet lines are empty iff there are no posts, and start with "•" otherwise |
| Reddit.ListingNoDataIff | src/modules/perception/reddit.rs:84-88 | "No Reddit data found." iff the children are missing, not an array, or empty |
| Reddit.ParseJsonResponse | src/modules/perception/reddit.rs:70-89 | The loop builds the listing its definition states |
| Reddit.TokenGrant | src/modules/perception/reddit.rs:45-53 | A token is granted iff the reply is 2xx, decodes and has a text access_token |
| Reddit.PublicOutcome | src/modules/perception/reddit.rs:57-67 | The public fetch succeeds iff a body decodes, whatever the status |
| Reddit.OAuthListing | src/modules/perception/reddit.rs:93-118 | The OAuth listing is used iff its reply is 2xx and decodes |
| Reddit.GrantedTokenReused | src/modules/perception/reddit.rs:31-33 | A token is reused while more than 60 s of its lifetime remain, and not at the margin |
| Reddit.RedditSentinel.constructor | src/modules/perception/reddit.rs:18-25 | The token cache starts empty with expiry 0 |
| Reddit.RedditSentinel.GetAccessToken | src/modules/perception/reddit.rs:27-55 | The cached token is returned without a request iff it is fresh; a grant replaces the cache with (token, now + lifetime); a failure leaves it |
| Reddit.RedditSentinel.AnalyzeSentiment | src/modules/perception/reddit.rs:91-119 | OAuth is tried only with a client id; any token or fetch failure falls back to the public listing; with a client id the token cache is kept while fresh, replaced by a grant, and kept on a failed grant |
| Scanner.PriceChange | src/modules/evolution/scanner.rs:24-36 | A change exists iff there are at least 3 bars and the previous close is not 0 |
| Scanner.PumpIffAboveThreshold | src/modules/evolution/scanner.rs:36-39 | A pump is a last close strictly above 1.05 times a positive previous close |
| Scanner.ScanStoresIff | src/modules/evolution/scanner.rs:20-75 | A lesson is stored iff 3 bars, a nonzero previous close, a rise strictly above 5 % and no recent buy; it describes the pre-pump bar; a count error only matters after a pump |
| Scanner.ScanSkips | src/modules/evolution/scanner.rs:24-33 | Fewer than three bars, or a previous close of 0, store nothing |
| Scanner.ScanSeesLastThreeBars | src/modules/evolution/scanner.rs:26-30 | Bars before the last three do not change the scan |
| Scanner.ExactlyFivePercentIsNoPump | src/modules/evolution/scanner.rs:39 | A rise of exactly 5 % is not a pump |
| PnlMonitor.UpdateRows | src/modules/evolution/pnl_monitor.rs:40-48 | The UPDATE applies the row rule to every row and keeps the table's length |
| PnlMonitor.ApplyBills | src/modules/evolution/pnl_monitor.rs:33-53 | The bills keep the table's length |
| PnlMonitor.FirstNetIsFirst | src/modules/evolution/pnl_monitor.rs:33-48 | A net PnL is found iff some bill has that nonempty id, and it is the first such bill's |
| PnlMonitor.FirstNetOfEmptyId | src/modules/evolution/pnl_monitor.rs:36-38 | Bills with an empty order id settle nothing |
| PnlMonitor.ApplyBillsRowwise | src/modules/evolution/pnl_monitor.rs:33-53 | Every row is settled by the first bill with its id when its PnL was NULL, and is otherwise unchanged |
| PnlMonitor.SettleRowIdempotent | src/modules/evolution/pnl_monitor.rs:40-48 | Settling a settled row changes nothing |
| PnlMonitor.ApplyBillsIdempotent | src/modules/evolution/pnl_monitor.rs:33-53 | Re-running with the same bills leaves the table as it is |
| PnlMonitor.FirstBillWins | src/modules/evolution/pnl_monitor.rs:40-48 | A NULL row takes pnl + fee of the first bill with its id; a row already set is unchanged |
| PnlMonitor.UnbilledRowUnchanged | src/modules/evolution/pnl_monitor.rs:41-43 | A row with an empty or unbilled order id is unchanged |
| PnlMonitor.TradeLog.constructor | src/modules/evolution/pnl_monitor.rs:11-14 | The log starts from the given rows |
| PnlMonitor.TradeLog.SyncRealizedPnl | src/modules/evolution/pnl_monitor.rs:17-56 | A failed fetch returns Ok with the table unchanged; a failing UPDATE returns an error after the bills before it were applied; otherwise Ok after all bills |

## Left out

- Floating point: `f64` is an exact `real` here. There is no NaN, no infinity, no negative zero and no rounding of intermediate results. `{:.d}` of a negative value that rounds to zero keeps its "-" (Decimal.FormatFixedText); the `f64` value −0.0, which Rust also prints with a "-", does not exist here. The `as u32` and `as u64` casts are written out as truncation with saturation.
- Decimal.RenderNumText: a negative value whose digits round to zero renders without its "-". Order bodies render only sizes that do not print as zero and bracket prices, which are negative only for a stop-loss of 100 % or more.
- Trader.CycleStep: models one symbol's pass with the balance already fetched. The position fetch, the price and analysis calls and the report timer between the alert and the order are inputs.
- Trader.PositionSizeKelly: requires leverage ≥ 1. With leverage 0 the source divides by zero in `f64` and gets infinities or NaN.
- Indicators.CalculateRsi, Indicators.CalculateAtr, Indicators.CalculateEma: require a period ≥ 1. The bot always passes 14, 20 or 50.
- Decimal.LogDecimals: `log10` is replaced by a search for the decimal count. The search is bounded by 400 decimals, which covers every positive `f64`.
- Library parsing and formatting are function parameters: `serde_json` parsing and serialization, text-to-number parsing, and `Display` of floats in message text. The `{:.*}` formatting of order sizes and prices is modelled, as round-half-to-even on the exact value.
- HMAC-SHA256 signing, base64 and form URL-encoding are function parameters, in executor.rs:93-100 and notifier.rs:51-56.
- Case mapping covers ASCII letters only.
- Clocks and timestamps are parameters. Sleeps are returned as millisecond or second totals instead of being performed.
- HTTP sends, the websocket connection and the database reach the model as outcomes: one outcome per attempt, per connection round, or the index of the failing UPDATE.
- The reconnect loop of `run` is modelled over a finite list of rounds; the source loops forever.
- Concurrency is left out: the `DashMap` price cache, the `RwLock` instrument cache, the `Mutex` token cache, `tokio::spawn` and `tokio::join!`. Every cache is a plain field updated sequentially.
- Logging (`info!`, `warn!`, `error!`) and the DingTalk reply check in notifier.rs:80-93 only log, so they are left out.
- `call_llm`, the prompt text and the memory recall in llm.rs are left out. The model starts from the model's reply text.
- News.ExtractHeadline and News.FetchRawHeadlines, with News.HeadlineOf, News.HeadlinesOf, News.ExtractHeadlines, News.CollectHeadlines and News.Digest, use the corrected title search of the Findings row (news.rs:43-45). They agree with the source wherever the source's slice does not panic. On a segment such as "</title><title>x" the source panics and the model yields the headline "x".
- The retry loop that fetches the RSS feed in news.rs is left out as network plumbing. The digest starts from the response text, "" when every attempt failed.
- Reddit.RedditSentinel.GetAccessToken: the u64 overflow of now + expires_in is not modelled.
- Scanner.ScanStoresIff: the kline fetch and the trade-count query are inputs, and the `store_memory` call is represented by the lesson text it would store. The store's own errors are not modelled.
- `send_evolution_log` and `send_markdown` (notifier.rs:242-273) are unused by the bot and are not modelled.
- PnlMonitor.TradeRow keeps only the order id and the realized PnL of a `trade_logs` row. The other columns are neither read nor written by the back-fill.
- fetch_account_summary: a missing `totalEq` or `availEq` reads as 0, while a present field that does not parse is an error. The model follows the code (executor.rs:232-233) rather than a reading in which any missing field is an error.
- `rag.rs`, `snapshot.rs`, `autopsy.rs`, `risk_profile.rs`, `text_serializer.rs`, `fetcher.rs`, `http_client.rs`, `test_rag_net.rs` and the schema setup in main.rs:72-91 are not part of this model: they are storage, configuration, client and connectivity plumbing.

## Findings

| source | as written | input that shows it | evidently intended | confidence | as-written member | corrected member |
|---|---|---|---|---|---|---|
| src/modules/perception/news.rs:43-45 | looks up the first "</title>" from the start of the segment and slices `part[start + 7..end]`, which panics when the closing tag comes before the opening tag | an item segment "</title><title>x" | search for "</title>" only after the opening "<title>" | not executed | News.TitleAsWrittenPanics | News.TitleOfAgrees |
