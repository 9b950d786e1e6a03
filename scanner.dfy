/**
 * The missed-opportunity scan of `modules/evolution/scanner.rs`: when the
 * last bar closed more than 5 % above the bar before it and nothing was
 * bought in the last 12 hours, a lesson describing the bar before the pump
 * is stored.  The kline fetch, the trade-count query and the memory store
 * are outside the model: the first two arrive as results and the scan
 * yields the lesson it would store.
 */
module Scanner {
  import opened Base
  import opened Json
  import opened Market

  /** At least this many bars are needed to look back at the bar before a pump. */
  const MinBars: nat := 3
  /** A rise strictly above 5 % counts as a pump. */
  const PumpThreshold: real := 0.05

  /** The relative change from the previous close to the last, when there are three bars and the previous close is not 0. */
  function PriceChange(klines: seq<Kline>, parseF64: string -> Option<real>): (r: Option<real>)
    ensures r.Some? <==> |klines| >= MinBars && ClosePrice(klines[|klines| - 2], parseF64) != 0.0
  {
    if |klines| < MinBars then None
    else
      var prevClose := ClosePrice(klines[|klines| - 2], parseF64);
      if prevClose == 0.0 then None
      else Some((ClosePrice(klines[|klines| - 1], parseF64) - prevClose) / prevClose)
  }

  /** With a positive previous close, a pump is a last close strictly above 1.05 times it. */
  lemma PumpIffAboveThreshold(prev: real, cur: real)
    requires prev > 0.0
    ensures (cur - prev) / prev > PumpThreshold <==> cur > prev * (1.0 + PumpThreshold)
  {
    var q := (cur - prev) / prev;
    DivMul(cur - prev, prev);
    if q > PumpThreshold {
      MulLeftStrict(PumpThreshold, q, prev);
    }
    if cur > prev * (1.0 + PumpThreshold) {
      if q <= PumpThreshold {
        MulLeft(q, PumpThreshold, prev);
      }
    }
  }

  const PumpNote: string := "Snapshot taken 1h BEFORE the 5% pump"
  const PumpStructure: string := "Potential accumulation"

  /** The context of the bar before the pump: its close and its volume text. */
  function PrePumpContext(symbol: string, prePump: Kline, parseF64: string -> Option<real>): Value {
    Obj(map[
      "symbol" := Str(symbol),
      "price_before_pump" := Float(ClosePrice(prePump, parseF64)),
      "indicators" := Obj(map[
        "note" := Str(PumpNote),
        "volume" := Str(prePump.volume),
        "structure" := Str(PumpStructure)])])
  }

  /** The lesson text: the pump in percent with two decimals, then the serialized context. */
  function Lesson(symbol: string, prePump: Kline, change: real, codecs: Codecs): string {
    "💡 OPPORTUNITY: Price pumped " + Fmt(change * 100.0, 2)
    + "% shortly after this state. Look for these signs!\n\nPRE-PUMP CONTEXT: "
    + codecs.serialize(PrePumpContext(symbol, prePump, codecs.parseF64))
  }

  /**
   * `scan_missed_opportunities`: a fetch error or a count error is passed
   * on; otherwise the lesson to store, if the last bar pumped and there was
   * no recent buy.  The count is only asked for after a pump.
   */
  function Scan(symbol: string, klines: Result<seq<Kline>, string>, recentBuys: Result<nat, string>,
                codecs: Codecs): (r: Result<Option<string>, string>)
  {
    match klines
    case Err(e) => Err(e)
    case Ok(bars) =>
      match PriceChange(bars, codecs.parseF64)
      case None => Ok(None)
      case Some(change) =>
        if change <= PumpThreshold then Ok(None)
        else match recentBuys
          case Err(e) => Err(e)
          case Ok(count) => if count == 0 then Ok(Some(Lesson(symbol, bars[|bars| - 3], change, codecs))) else Ok(None)
  }

  /**
   * A lesson is stored exactly when there are three bars, the previous close
   * is not 0, the rise is strictly above 5 % and the recent buy count is 0;
   * it describes the bar two before the last.
   */
  lemma ScanStoresIff(symbol: string, bars: seq<Kline>, recentBuys: Result<nat, string>, codecs: Codecs)
    ensures var r := Scan(symbol, Ok(bars), recentBuys, codecs);
      var change := PriceChange(bars, codecs.parseF64);
      && (r.Ok? && r.value.Some? <==>
           |bars| >= MinBars && ClosePrice(bars[|bars| - 2], codecs.parseF64) != 0.0
           && change.value > PumpThreshold && recentBuys == Ok(0))
      && (r.Ok? && r.value.Some? ==> r.value.value == Lesson(symbol, bars[|bars| - 3], change.value, codecs))
      && (r.Err? <==> change.Some? && change.value > PumpThreshold && recentBuys.Err?)
  {
  }

  /** Fewer than three bars, or a previous close of 0, never store anything and never ask for the count. */
  lemma ScanSkips(symbol: string, bars: seq<Kline>, recentBuys: Result<nat, string>, codecs: Codecs)
    requires |bars| < MinBars || ClosePrice(bars[|bars| - 2], codecs.parseF64) == 0.0
    ensures Scan(symbol, Ok(bars), recentBuys, codecs) == Ok(None)
  {
  }

  /** Only the last three bars matter: anything before them leaves the scan unchanged. */
  lemma ScanSeesLastThreeBars(symbol: string, older: seq<Kline>, bars: seq<Kline>,
                              recentBuys: Result<nat, string>, codecs: Codecs)
    requires |bars| == MinBars
    ensures Scan(symbol, Ok(older + bars), recentBuys, codecs) == Scan(symbol, Ok(bars), recentBuys, codecs)
  {
    var all := older + bars;
    assert all[|all| - 1] == bars[2] && all[|all| - 2] == bars[1] && all[|all| - 3] == bars[0];
  }

  /** A rise of exactly 5 % is not a pump. */
  lemma ExactlyFivePercentIsNoPump(symbol: string, bars: seq<Kline>, recentBuys: Result<nat, string>, codecs: Codecs)
    requires |bars| >= MinBars && ClosePrice(bars[|bars| - 2], codecs.parseF64) == 100.0
    requires ClosePrice(bars[|bars| - 1], codecs.parseF64) == 105.0
    ensures Scan(symbol, Ok(bars), recentBuys, codecs) == Ok(None)
  {
    assert PriceChange(bars, codecs.parseF64) == Some(0.05);
  }
}
