/**
 * The technical indicators of `modules/perception/math.rs`: Wilder-smoothed
 * RSI, the average true range and an SMA-seeded EMA, each computed by a loop
 * over the closes of a kline series and specified by a recursive function.
 */
module Indicators {
  import opened Base
  import opened Market

  /** The close of every kline, 0 where the text does not parse. */
  function Closes(klines: seq<Kline>, parseF64: string -> Option<real>): (r: seq<real>)
    ensures |r| == |klines|
    ensures forall i :: 0 <= i < |klines| ==> r[i] == ClosePrice(klines[i], parseF64)
  {
    seq(|klines|, (i: int) requires 0 <= i < |klines| => ClosePrice(klines[i], parseF64))
  }

  // ---------------------------------------------------------------- RSI

  /** The price change into bar `i`. */
  function Change(prices: seq<real>, i: nat): real
    requires 1 <= i < |prices|
  {
    prices[i] - prices[i - 1]
  }

  /** The gain part of a change: the change when it rises, else 0. */
  function Gain(change: real): (r: real)
    ensures r >= 0.0
    ensures r > 0.0 <==> change > 0.0
  {
    if change > 0.0 then change else 0.0
  }

  /** The loss part of a change: its size when it does not rise, else 0. */
  function Loss(change: real): (r: real)
    ensures r >= 0.0
    ensures r > 0.0 <==> change < 0.0
    ensures Gain(change) - r == change
  {
    if change > 0.0 then 0.0 else -change
  }

  /** The total gain over the changes into bars 1..=n. */
  function SumGains(prices: seq<real>, n: nat): (r: real)
    requires n < |prices|
    ensures r >= 0.0
  {
    if n == 0 then 0.0 else SumGains(prices, n - 1) + Gain(Change(prices, n))
  }

  /** The total loss over the changes into bars 1..=n. */
  function SumLosses(prices: seq<real>, n: nat): (r: real)
    requires n < |prices|
    ensures r >= 0.0
  {
    if n == 0 then 0.0 else SumLosses(prices, n - 1) + Loss(Change(prices, n))
  }

  /** One step of Wilder's smoothing: (avg · (period − 1) + current) / period. */
  function Smooth(avg: real, current: real, period: nat): (r: real)
    requires period >= 1
    ensures avg >= 0.0 && current >= 0.0 ==> r >= 0.0
  {
    (avg * (period as real - 1.0) + current) / period as real
  }

  /**
   * The average gain after bar `j`: the mean gain of the first `period`
   * changes, then smoothed with every later change.
   */
  function AvgGain(prices: seq<real>, period: nat, j: nat): (r: real)
    requires 1 <= period <= j < |prices|
    ensures r >= 0.0
    decreases j
  {
    if j == period then SumGains(prices, period) / period as real
    else Smooth(AvgGain(prices, period, j - 1), Gain(Change(prices, j)), period)
  }

  /** The average loss after bar `j`, smoothed the same way. */
  function AvgLoss(prices: seq<real>, period: nat, j: nat): (r: real)
    requires 1 <= period <= j < |prices|
    ensures r >= 0.0
    decreases j
  {
    if j == period then SumLosses(prices, period) / period as real
    else Smooth(AvgLoss(prices, period, j - 1), Loss(Change(prices, j)), period)
  }

  /** 100 − 100 / (1 + avgGain / avgLoss), and 100 when there is no loss. */
  function RsiOf(avgGain: real, avgLoss: real): real
    requires avgGain >= 0.0 && avgLoss >= 0.0
  {
    if avgLoss == 0.0 then 100.0 else 100.0 - 100.0 / (1.0 + avgGain / avgLoss)
  }

  /** The RSI of a series: 50 until there are `period` changes to average. */
  function Rsi(prices: seq<real>, period: nat): real
    requires period >= 1
  {
    if |prices| < period + 1 then 50.0
    else RsiOf(AvgGain(prices, period, |prices| - 1), AvgLoss(prices, period, |prices| - 1))
  }

  /** With nonnegative averages the RSI is 100 exactly when there is no loss, else in [0, 100). */
  lemma RsiOfRange(avgGain: real, avgLoss: real)
    requires avgGain >= 0.0 && avgLoss >= 0.0
    ensures avgLoss == 0.0 ==> RsiOf(avgGain, avgLoss) == 100.0
    ensures avgLoss > 0.0 ==> 0.0 <= RsiOf(avgGain, avgLoss) < 100.0
  {
    if avgLoss > 0.0 {
      var rs := avgGain / avgLoss;
      assert rs >= 0.0;
      var q := 100.0 / (1.0 + rs);
      DivMul(100.0, 1.0 + rs);
      assert q > 0.0;
      MulAtLeastOne(1.0 + rs, q);
      assert q * (1.0 + rs) == (1.0 + rs) * q;
    }
  }

  /** The RSI lies in [0, 100] and is 100 exactly when the average loss is 0. */
  lemma RsiRange(prices: seq<real>, period: nat)
    requires period >= 1
    ensures 0.0 <= Rsi(prices, period) <= 100.0
    ensures Rsi(prices, period) == 100.0
        <==> |prices| >= period + 1 && AvgLoss(prices, period, |prices| - 1) == 0.0
    ensures |prices| < period + 1 ==> Rsi(prices, period) == 50.0
  {
    if |prices| >= period + 1 {
      RsiOfRange(AvgGain(prices, period, |prices| - 1), AvgLoss(prices, period, |prices| - 1));
    }
  }

  /** `calculate_rsi`: sums the first `period` changes, then smooths the rest. */
  method CalculateRsi(prices: seq<real>, period: nat) returns (rsi: real)
    requires period >= 1
    ensures rsi == Rsi(prices, period)
    ensures 0.0 <= rsi <= 100.0
    ensures |prices| < period + 1 ==> rsi == 50.0
  {
    RsiRange(prices, period);
    if |prices| < period + 1 {
      return 50.0;
    }
    var gains := 0.0;
    var losses := 0.0;
    for i := 1 to period + 1
      invariant gains == SumGains(prices, i - 1)
      invariant losses == SumLosses(prices, i - 1)
    {
      var change := prices[i] - prices[i - 1];
      if change > 0.0 {
        gains := gains + change;
      } else {
        losses := losses - change;
      }
    }
    var avgGain := gains / period as real;
    var avgLoss := losses / period as real;
    for i := period + 1 to |prices|
      invariant avgGain == AvgGain(prices, period, i - 1)
      invariant avgLoss == AvgLoss(prices, period, i - 1)
    {
      var change := prices[i] - prices[i - 1];
      var currentGain, currentLoss := if change > 0.0 then change else 0.0, if change > 0.0 then 0.0 else Abs(change);
      avgGain := Smooth(avgGain, currentGain, period);
      avgLoss := Smooth(avgLoss, currentLoss, period);
    }
    if avgLoss == 0.0 {
      return 100.0;
    }
    var rs := avgGain / avgLoss;
    rsi := 100.0 - 100.0 / (1.0 + rs);
  }

  // ---------------------------------------------------------------- ATR

  /** The true range of a bar: the largest of high − low, |high − prevClose| and |low − prevClose|. */
  function TrueRange(high: real, low: real, prevClose: real): (r: real)
    ensures r >= 0.0
    ensures r >= high - low && r >= Abs(high - prevClose) && r >= Abs(low - prevClose)
    ensures r == high - low || r == Abs(high - prevClose) || r == Abs(low - prevClose)
  {
    Max(Max(high - low, Abs(high - prevClose)), Abs(low - prevClose))
  }

  /** The true range of bar `i` against the close of bar `i − 1`. */
  function BarRange(klines: seq<Kline>, i: nat, parseF64: string -> Option<real>): real
    requires 1 <= i < |klines|
  {
    TrueRange(HighPrice(klines[i], parseF64), LowPrice(klines[i], parseF64), ClosePrice(klines[i - 1], parseF64))
  }

  /** The total true range of bars 1..=n. */
  function TrSum(klines: seq<Kline>, n: nat, parseF64: string -> Option<real>): (r: real)
    requires n < |klines|
    ensures r >= 0.0
  {
    if n == 0 then 0.0 else TrSum(klines, n - 1, parseF64) + BarRange(klines, n, parseF64)
  }

  /** The ATR: the mean true range of bars 1..=period, and 0 until there are that many. */
  function Atr(klines: seq<Kline>, period: nat, parseF64: string -> Option<real>): real
    requires period >= 1
  {
    if |klines| < period + 1 then 0.0 else TrSum(klines, period, parseF64) / period as real
  }

  /** The ATR is never negative, and is 0 while there are fewer than period + 1 bars. */
  lemma AtrNonnegative(klines: seq<Kline>, period: nat, parseF64: string -> Option<real>)
    requires period >= 1
    ensures Atr(klines, period, parseF64) >= 0.0
    ensures |klines| < period + 1 ==> Atr(klines, period, parseF64) == 0.0
  {
  }

  /** Only the first n + 1 bars reach the sum of true ranges. */
  lemma {:induction false} TrSumPrefix(klines: seq<Kline>, more: seq<Kline>, n: nat, parseF64: string -> Option<real>)
    requires n < |klines|
    ensures TrSum(klines + more, n, parseF64) == TrSum(klines, n, parseF64)
  {
    if n > 0 {
      TrSumPrefix(klines, more, n - 1, parseF64);
      assert (klines + more)[n] == klines[n] && (klines + more)[n - 1] == klines[n - 1];
    }
  }

  /** Bars after index `period` do not affect the ATR. */
  lemma AtrIgnoresLaterBars(klines: seq<Kline>, more: seq<Kline>, period: nat, parseF64: string -> Option<real>)
    requires period >= 1 && |klines| >= period + 1
    ensures Atr(klines + more, period, parseF64) == Atr(klines, period, parseF64)
  {
    TrSumPrefix(klines, more, period, parseF64);
  }

  /** `calculate_atr`: the true ranges of bars 1..=period summed in a loop and averaged. */
  method CalculateAtr(klines: seq<Kline>, period: nat, parseF64: string -> Option<real>) returns (atr: real)
    requires period >= 1
    ensures atr == Atr(klines, period, parseF64)
    ensures atr >= 0.0
    ensures |klines| < period + 1 ==> atr == 0.0
  {
    if |klines| < period + 1 {
      return 0.0;
    }
    var trSum := 0.0;
    for i := 1 to period + 1
      invariant trSum == TrSum(klines, i - 1, parseF64)
    {
      var high := HighPrice(klines[i], parseF64);
      var low := LowPrice(klines[i], parseF64);
      var prevClose := ClosePrice(klines[i - 1], parseF64);
      var tr := TrueRange(high, low, prevClose);
      trSum := trSum + tr;
    }
    atr := trSum / period as real;
  }

  // ---------------------------------------------------------------- EMA

  /** The sum of a series, added left to right. */
  function Sum(xs: seq<real>): real {
    if |xs| == 0 then 0.0 else Sum(xs[..|xs| - 1]) + xs[|xs| - 1]
  }

  /** One EMA update: price · k + ema · (1 − k). */
  function EmaStep(ema: real, price: real, k: real): real {
    price * k + ema * (1.0 - k)
  }

  /** The EMA after folding every price of `xs` into `seed`, in order. */
  function EmaFold(seed: real, xs: seq<real>, k: real): real {
    if |xs| == 0 then seed else EmaStep(EmaFold(seed, xs[..|xs| - 1], k), xs[|xs| - 1], k)
  }

  /** The smoothing factor 2 / (period + 1). */
  function Smoothing(period: nat): (k: real)
    requires period >= 1
    ensures 0.0 < k <= 1.0
  {
    DivBounds(2.0, period as real + 1.0, 0.0, 1.0);
    2.0 / (period as real + 1.0)
  }

  /**
   * The EMA of a series: the last price (0 for none) while there are fewer
   * than `period` prices; otherwise the mean of the first `period` prices as
   * the seed, updated with every later price.
   */
  function Ema(prices: seq<real>, period: nat): real
    requires period >= 1
  {
    if |prices| < period then (if |prices| == 0 then 0.0 else prices[|prices| - 1])
    else EmaFold(Sum(prices[..period]) / period as real, prices[period..], Smoothing(period))
  }

  /** Each price after the seed window moves the EMA by one update. */
  lemma EmaAppend(prices: seq<real>, price: real, period: nat)
    requires period >= 1 && |prices| >= period
    ensures Ema(prices + [price], period) == EmaStep(Ema(prices, period), price, Smoothing(period))
  {
    var ext := prices + [price];
    assert ext[..period] == prices[..period];
    assert ext[period..] == prices[period..] + [price];
    assert ext[period..][..|ext[period..]| - 1] == prices[period..];
  }

  /** A sum of terms within [lo, hi] lies within [lo · n, hi · n]. */
  lemma {:induction false} SumBounds(xs: seq<real>, lo: real, hi: real)
    requires forall i :: 0 <= i < |xs| ==> lo <= xs[i] <= hi
    ensures lo * |xs| as real <= Sum(xs) <= hi * |xs| as real
  {
    if |xs| > 0 {
      SumBounds(xs[..|xs| - 1], lo, hi);
      assert lo * (|xs| - 1) as real + lo == lo * |xs| as real;
      assert hi * (|xs| - 1) as real + hi == hi * |xs| as real;
    }
  }

  /** An update is the old EMA moved a fraction k of the way towards the price. */
  lemma EmaStepToward(ema: real, price: real, k: real)
    ensures EmaStep(ema, price, k) == ema + k * (price - ema)
  {
  }

  /** A fraction k of a difference d lies between 0 and d. */
  lemma FractionOf(k: real, d: real)
    requires 0.0 <= k <= 1.0
    ensures d >= 0.0 ==> 0.0 <= k * d <= d
    ensures d < 0.0 ==> d <= k * d <= 0.0
  {
    if d >= 0.0 {
      MulLeft(0.0, k, d);
      MulLeft(k, 1.0, d);
    } else {
      MulLeft(k, 1.0, -d);
      assert k * -d == -(k * d);
    }
  }

  /** One update keeps the EMA between the bounds of the old EMA and the price. */
  lemma EmaStepBounds(ema: real, price: real, k: real, lo: real, hi: real)
    requires 0.0 < k <= 1.0 && lo <= ema <= hi && lo <= price <= hi
    ensures lo <= EmaStep(ema, price, k) <= hi
  {
    EmaStepToward(ema, price, k);
    var d := price - ema;
    FractionOf(k, d);
    var t := k * d;
    assert EmaStep(ema, price, k) == ema + t;
    if d >= 0.0 {
      assert lo <= ema <= ema + t <= price <= hi;
    } else {
      assert lo <= price <= ema + t <= ema <= hi;
    }
  }

  /** A fold of prices within [lo, hi] from a seed within it stays within it. */
  lemma {:induction false} EmaFoldBounds(seed: real, xs: seq<real>, k: real, lo: real, hi: real)
    requires 0.0 < k <= 1.0 && lo <= seed <= hi
    requires forall i :: 0 <= i < |xs| ==> lo <= xs[i] <= hi
    ensures lo <= EmaFold(seed, xs, k) <= hi
  {
    if |xs| > 0 {
      EmaFoldBounds(seed, xs[..|xs| - 1], k, lo, hi);
      EmaStepBounds(EmaFold(seed, xs[..|xs| - 1], k), xs[|xs| - 1], k, lo, hi);
    }
  }

  /** The EMA of a nonempty series whose prices lie within [lo, hi] lies within [lo, hi] too. */
  lemma EmaWithinRange(prices: seq<real>, period: nat, lo: real, hi: real)
    requires period >= 1 && |prices| > 0
    requires forall i :: 0 <= i < |prices| ==> lo <= prices[i] <= hi
    ensures lo <= Ema(prices, period) <= hi
  {
    if |prices| >= period {
      var window := prices[..period];
      SumBounds(window, lo, hi);
      DivBounds(Sum(window), period as real, lo, hi);
      var rest := prices[period..];
      assert forall i :: 0 <= i < |rest| ==> rest[i] == prices[period + i];
      EmaFoldBounds(Sum(window) / period as real, rest, Smoothing(period), lo, hi);
    }
  }

  /** The EMA of a nonempty constant series is that constant. */
  lemma EmaOfConstant(prices: seq<real>, period: nat, c: real)
    requires period >= 1 && |prices| > 0
    requires forall i :: 0 <= i < |prices| ==> prices[i] == c
    ensures Ema(prices, period) == c
  {
    EmaWithinRange(prices, period, c, c);
  }

  /** `calculate_ema`: the SMA seed, then one update per later price. */
  method CalculateEma(prices: seq<real>, period: nat) returns (ema: real)
    requires period >= 1
    ensures ema == Ema(prices, period)
    ensures |prices| < period ==> ema == (if |prices| == 0 then 0.0 else prices[|prices| - 1])
  {
    if |prices| < period {
      return if |prices| == 0 then 0.0 else prices[|prices| - 1];
    }
    var total := SumPrices(prices[..period]);
    var smaSeed := total / period as real;
    var k := 2.0 / (period as real + 1.0);
    ema := FoldPrices(smaSeed, prices[period..], k);
  }

  /** `prices.iter().take(period).sum()`. */
  method SumPrices(xs: seq<real>) returns (total: real)
    ensures total == Sum(xs)
  {
    total := 0.0;
    for i := 0 to |xs|
      invariant total == Sum(xs[..i])
    {
      assert xs[..i + 1][..i] == xs[..i];
      total := total + xs[i];
    }
    assert xs[..|xs|] == xs;
  }

  /** The update loop over `prices.iter().skip(period)`. */
  method FoldPrices(seed: real, xs: seq<real>, k: real) returns (ema: real)
    ensures ema == EmaFold(seed, xs, k)
  {
    ema := seed;
    for i := 0 to |xs|
      invariant ema == EmaFold(seed, xs[..i], k)
    {
      assert xs[..i + 1][..i] == xs[..i];
      ema := xs[i] * k + ema * (1.0 - k);
    }
    assert xs[..|xs|] == xs;
  }

  // ---------------------------------------------------------------- analyze

  const TrendBullish: string := "Bullish"
  const TrendBearish: string := "Bearish"
  const TrendNeutral: string := "Neutral"

  /** The trend signal from the 20- and 50-period EMAs. */
  function Trend(ema20: real, ema50: real): string {
    if ema20 > ema50 then TrendBullish else if ema20 < ema50 then TrendBearish else TrendNeutral
  }

  lemma TrendIff(ema20: real, ema50: real)
    ensures Trend(ema20, ema50) == TrendBullish <==> ema20 > ema50
    ensures Trend(ema20, ema50) == TrendBearish <==> ema20 < ema50
    ensures Trend(ema20, ema50) == TrendNeutral <==> ema20 == ema50
  {
  }

  const RsiPeriod: nat := 14
  const AtrPeriod: nat := 14
  const ShortEmaPeriod: nat := 20
  const LongEmaPeriod: nat := 50

  /** `analyze`: RSI(14), ATR(14), EMA(20), EMA(50) of the closes and the trend between the EMAs. */
  method Analyze(klines: seq<Kline>, parseF64: string -> Option<real>) returns (r: Indicators)
    ensures var closes := Closes(klines, parseF64);
      && r.rsi14 == Rsi(closes, RsiPeriod)
      && r.atr14 == Atr(klines, AtrPeriod, parseF64)
      && r.ema20 == Ema(closes, ShortEmaPeriod)
      && r.ema50 == Ema(closes, LongEmaPeriod)
      && r.trendSignal == Trend(r.ema20, r.ema50)
    ensures 0.0 <= r.rsi14 <= 100.0 && r.atr14 >= 0.0
  {
    var closes := Closes(klines, parseF64);
    var rsi := CalculateRsi(closes, RsiPeriod);
    var atr := CalculateAtr(klines, AtrPeriod, parseF64);
    var ema20 := CalculateEma(closes, ShortEmaPeriod);
    var ema50 := CalculateEma(closes, LongEmaPeriod);
    var trend := if ema20 > ema50 then "Bullish" else if ema20 < ema50 then "Bearish" else "Neutral";
    r := Indicators(rsi, atr, ema20, ema50, trend);
  }
}
