/**
 * The market snapshot records of `modules/perception/structs.rs`: a kline
 * with its prices kept as text, the indicator set, and the narrative context
 * string built from a snapshot (its RSI, trend and funding labels and the
 * truncated sentiment texts).
 */
module Market {
  import opened Base
  import opened Text
  import opened Decimal

  /** One candle as the exchange sends it: prices as decimal text. */
  datatype Kline = Kline(openTime: int, open: string, high: string, low: string, close: string, volume: string)

  /** `close_price`: the parsed close, 0 when the text does not parse. */
  function ClosePrice(k: Kline, parseF64: string -> Option<real>): (r: real)
    ensures parseF64(k.close).None? ==> r == 0.0
    ensures parseF64(k.close).Some? ==> r == parseF64(k.close).value
  {
    parseF64(k.close).GetOr(0.0)
  }

  /** `high_price`: the parsed high, 0 when the text does not parse. */
  function HighPrice(k: Kline, parseF64: string -> Option<real>): (r: real)
    ensures parseF64(k.high).None? ==> r == 0.0
    ensures parseF64(k.high).Some? ==> r == parseF64(k.high).value
  {
    parseF64(k.high).GetOr(0.0)
  }

  /** `low_price`: the parsed low, 0 when the text does not parse. */
  function LowPrice(k: Kline, parseF64: string -> Option<real>): (r: real)
    ensures parseF64(k.low).None? ==> r == 0.0
    ensures parseF64(k.low).Some? ==> r == parseF64(k.low).value
  {
    parseF64(k.low).GetOr(0.0)
  }

  datatype Indicators = Indicators(rsi14: real, atr14: real, ema20: real, ema50: real, trendSignal: string)

  datatype MarketState = MarketState(
    timestamp: int,
    symbol: string,
    price: real,
    indicators: Indicators,
    fundingRate: real,
    openInterest: real,
    redditSentiment: string,
    newsSentiment: string)

  /** The RSI narrative: above 70 overbought, below 30 oversold. */
  function RsiLabel(rsi: real): string {
    if rsi > 70.0 then "Overbought" else if rsi < 30.0 then "Oversold" else "Neutral"
  }

  /** Both thresholds are exclusive: 30 and 70 themselves are neutral. */
  lemma RsiLabelIff(rsi: real)
    ensures RsiLabel(rsi) == "Overbought" <==> rsi > 70.0
    ensures RsiLabel(rsi) == "Oversold" <==> rsi < 30.0
    ensures RsiLabel(rsi) == "Neutral" <==> 30.0 <= rsi <= 70.0
  {
  }

  /** The trend narrative: above the 20-period EMA, strictly. */
  function EmaLabel(price: real, ema20: real): string {
    if price > ema20 then "Above short-term trend" else "Below short-term trend"
  }

  lemma EmaLabelIff(price: real, ema20: real)
    ensures EmaLabel(price, ema20) == "Above short-term trend" <==> price > ema20
    ensures EmaLabel(price, ema20) == "Below short-term trend" <==> price <= ema20
  {
  }

  const HighPositiveFunding: string := "High Positive Funding (Longs paying Shorts)"
  const HighNegativeFunding: string := "High Negative Funding (Shorts paying Longs)"
  const NeutralFunding: string := "Neutral Funding"

  /** The funding narrative on the rate as a percentage, with thresholds of ±0.01 %. */
  function FundingLabel(fundingRate: real): string {
    var fundingPct := fundingRate * 100.0;
    if fundingPct > 0.01 then HighPositiveFunding
    else if fundingPct < -0.01 then HighNegativeFunding
    else NeutralFunding
  }

  /** In terms of the raw rate the thresholds are ±0.0001, exclusive. */
  lemma FundingLabelIff(fundingRate: real)
    ensures FundingLabel(fundingRate) == HighPositiveFunding <==> fundingRate > 0.0001
    ensures FundingLabel(fundingRate) == HighNegativeFunding <==> fundingRate < -0.0001
    ensures FundingLabel(fundingRate) == NeutralFunding <==> -0.0001 <= fundingRate <= 0.0001
  {
  }

  /** At most this many characters of each sentiment text reach the context. */
  const SentimentLimit: nat := 2000

  /** `{:.d}` of an `f64`: signed by the value, so a negative one always prints "-". */
  function Fmt(x: real, d: nat): (s: string)
    ensures |s| > 0 && (s[0] == '-' <==> x < 0.0)
  {
    FormatFixedText(x, d)
  }

  /** The sentiment part of the context: both texts, each cut to its first 2000 characters. */
  function SentimentSummary(s: MarketState): string {
    "- Market Sentiment Summary:\n[News Headlines]: " + Take(s.newsSentiment, SentimentLimit)
    + "\n[Social Discussion]: " + Take(s.redditSentiment, SentimentLimit)
  }

  /** `to_context_string`: the snapshot as the narrative paragraph used for retrieval. */
  function ContextString(s: MarketState): string {
    TechnicalSummary(s) + SentimentSummary(s)
  }

  /** The technical part of the context: price, trend, momentum and derivatives lines. */
  function TechnicalSummary(s: MarketState): string {
    "Market Context for " + s.symbol + ":\n"
    + "- Price Action: $" + Fmt(s.price, 2) + ", Trend is " + s.indicators.trendSignal
    + ". Price is " + EmaLabel(s.price, s.indicators.ema20) + ".\n"
    + "- Momentum: RSI is " + Fmt(s.indicators.rsi14, 2) + " (" + RsiLabel(s.indicators.rsi14)
    + "), Volatility (ATR) is " + Fmt(s.indicators.atr14, 2) + ".\n"
    + "- Derivatives: " + FundingLabel(s.fundingRate) + ", Open Interest is " + Fmt(s.openInterest, 0) + ".\n"
  }

  /** The context ends with the social text cut to a prefix of at most 2000 characters. */
  lemma ContextEndsWithSocialPrefix(s: MarketState)
    ensures var reddit := Take(s.redditSentiment, SentimentLimit);
      |reddit| <= SentimentLimit && reddit <= s.redditSentiment
      && ContextString(s)[|ContextString(s)| - |reddit|..] == reddit
    ensures |s.redditSentiment| <= SentimentLimit ==> Take(s.redditSentiment, SentimentLimit) == s.redditSentiment
  {
    var reddit := Take(s.redditSentiment, SentimentLimit);
    var head := TechnicalSummary(s) + "- Market Sentiment Summary:\n[News Headlines]: "
      + Take(s.newsSentiment, SentimentLimit) + "\n[Social Discussion]: ";
    assert ContextString(s) == head + reddit;
  }

  /** The context contains the news text cut to a prefix of at most 2000 characters. */
  lemma ContextContainsNewsPrefix(s: MarketState)
    ensures var news := Take(s.newsSentiment, SentimentLimit);
      |news| <= SentimentLimit && news <= s.newsSentiment && Contains(ContextString(s), news)
  {
    var news := Take(s.newsSentiment, SentimentLimit);
    var tail := "\n[Social Discussion]: " + Take(s.redditSentiment, SentimentLimit);
    assert SentimentSummary(s) == "- Market Sentiment Summary:\n[News Headlines]: " + news + tail;
    ContainsAfter(TechnicalSummary(s), "- Market Sentiment Summary:\n[News Headlines]: ", news, tail);
  }

  /** A text placed after a head and a lead-in, and before a tail, is contained in the whole. */
  lemma ContainsAfter(t: string, lead: string, news: string, tail: string)
    ensures Contains(t + (lead + news + tail), news)
  {
    assert t + (lead + news + tail) == (t + lead) + news + tail;
    ContainsMiddle(t + lead, news, tail);
  }
}
