/**
 * The trading loop of `main.rs`: half-Kelly position sizing with its clamps
 * and affordability checks, the win-rate soft cap, the drawdown alert, the
 * websocket-price freshness rule, the volatility-paced rest interval, the
 * routing of a decision to an order, and the bounded retry loops around the
 * baseline fetch and the order submission.
 */
module Trader {
  import opened Base
  import opened Json
  import opened Decimal
  import opened Executor
  import opened Brain

  // ---------------------------------------------------------------------------
  // Position sizing (`calculate_position_size_kelly`)
  // ---------------------------------------------------------------------------

  /** The smallest share of equity an order is sized at. */
  const MinOrderPct: real := 0.01

  /** Half-Kelly, capped at `maxPct` and floored at 1 %, with the cap compared first. */
  function ActualPct(kelly: real, maxPct: real): real {
    var safeKelly := kelly * 0.5;
    if safeKelly > maxPct then maxPct else if safeKelly < MinOrderPct then MinOrderPct else safeKelly
  }

  lemma ActualPctCases(kelly: real, maxPct: real)
    ensures kelly * 0.5 > maxPct ==> ActualPct(kelly, maxPct) == maxPct
    ensures kelly * 0.5 <= maxPct && kelly * 0.5 < MinOrderPct ==> ActualPct(kelly, maxPct) == MinOrderPct
    ensures MinOrderPct <= kelly * 0.5 <= maxPct ==> ActualPct(kelly, maxPct) == kelly * 0.5
    ensures maxPct >= MinOrderPct ==> MinOrderPct <= ActualPct(kelly, maxPct) <= maxPct
  {
  }

  /** With a cap below 1 %, a small Kelly fraction is sized at the 1 % floor, above the cap. */
  lemma ActualPctFloorAboveSmallCap()
    ensures ActualPct(0.005, 0.005) == MinOrderPct > 0.005
  {
  }

  /** The margin: `equity · pct`, or 95 % of the available balance when that is not enough. */
  function Margin(equity: real, available: real, pct: real): (m: real)
    ensures available >= 0.0 ==> m <= available
  {
    if equity * pct > available then available * 0.95 else equity * pct
  }

  /** The margin one minimum clip needs: `price · face · min_sz / leverage`. */
  function MinCostMargin(price: real, faceVal: real, minSz: real, lev: real): real
    requires lev > 0.0
  {
    (price * faceVal * minSz) / lev
  }

  /** The margin cost of `contracts` contracts: `contracts · price · face / leverage`. */
  function OrderCost(contracts: real, price: real, faceVal: real, lev: real): real
    requires lev > 0.0
  {
    (contracts * price * faceVal) / lev
  }

  /** The contracts the margin buys at this leverage, raised to one minimum clip. */
  function ContractsFor(margin: real, lev: real, price: real, faceVal: real, minSz: real): real
    requires price * faceVal != 0.0
  {
    Max(margin * lev / (price * faceVal), minSz)
  }

  lemma ContractsForClip(margin: real, lev: real, price: real, faceVal: real, minSz: real)
    requires price * faceVal != 0.0
    ensures var c := margin * lev / (price * faceVal);
      ContractsFor(margin, lev, price, faceVal, minSz) == if c < minSz then minSz else c
  {
  }

  /** The number of contracts `calculate_position_size_kelly` returns, for the symbol's face value and minimum size. */
  function PositionSize(equity: real, available: real, kelly: real, maxPct: real, leverage: nat,
                        price: real, faceVal: real, minSz: real): real
    requires leverage >= 1
  {
    var lev := leverage as real;
    if price * faceVal == 0.0 then 0.0
    else if available < MinCostMargin(price, faceVal, minSz, lev) then 0.0
    else SizeForMargin(Margin(equity, available, ActualPct(kelly, maxPct)), available, lev, price, faceVal, minSz)
  }

  /** The contracts a margin buys, or 0 when their margin cost exceeds the available balance. */
  function SizeForMargin(margin: real, available: real, lev: real, price: real, faceVal: real, minSz: real): real
    requires lev > 0.0 && price * faceVal != 0.0
  {
    var contracts := ContractsFor(margin, lev, price, faceVal, minSz);
    if OrderCost(contracts, price, faceVal, lev) > available then 0.0 else contracts
  }

  /**
   * `calculate_position_size_kelly`: the margin and the contract count are
   * reassigned step by step, as in the source.  Face value and minimum size
   * come from the instrument cache, with their defaults for unknown symbols.
   */
  method PositionSizeKelly(equity: real, available: real, kelly: real, maxPct: real, leverage: nat,
                           price: real, symbol: string, cache: map<string, InstrumentMeta>)
    returns (qty: real)
    requires leverage >= 1
    ensures qty == PositionSize(equity, available, kelly, maxPct, leverage, price,
                                FaceValue(cache, symbol), MinSize(cache, symbol))
  {
    var safeKelly := kelly * 0.5;
    var actualPct := if safeKelly > maxPct then maxPct else if safeKelly < MinOrderPct then MinOrderPct else safeKelly;
    assert actualPct == ActualPct(kelly, maxPct);
    var faceVal := FaceValue(cache, symbol);
    var minSz := MinSize(cache, symbol);
    var lev := leverage as real;
    if price * faceVal == 0.0 {
      return 0.0;
    }
    var minCostMargin := MinCostMargin(price, faceVal, minSz, lev);
    if available < minCostMargin {
      return 0.0;
    }
    var marginAmount := equity * actualPct;
    if marginAmount > available {
      marginAmount := available * 0.95;
    }
    assert marginAmount == Margin(equity, available, actualPct);
    qty := ContractsWithin(marginAmount, available, lev, price, faceVal, minSz);
  }

  /** The tail of `calculate_position_size_kelly`: the notional value in contracts, clipped up, then the final cost check. */
  method ContractsWithin(marginAmount: real, available: real, lev: real, price: real, faceVal: real, minSz: real)
    returns (qty: real)
    requires lev > 0.0 && price * faceVal != 0.0
    ensures qty == SizeForMargin(marginAmount, available, lev, price, faceVal, minSz)
    ensures qty != 0.0 ==> qty >= minSz && OrderCost(qty, price, faceVal, lev) <= available
  {
    var notionalValue := marginAmount * lev;
    ContractsForClip(marginAmount, lev, price, faceVal, minSz);
    var contracts := notionalValue / (price * faceVal);
    if contracts < minSz {
      contracts := minSz;
    }
    assert contracts == ContractsFor(marginAmount, lev, price, faceVal, minSz);
    var finalCost := OrderCost(contracts, price, faceVal, lev);
    if finalCost > available {
      return 0.0;
    }
    qty := contracts;
  }

  /** No size without a price and face value, or when one minimum clip is unaffordable. */
  lemma PositionSizeZeroGates(equity: real, available: real, kelly: real, maxPct: real, leverage: nat,
                              price: real, faceVal: real, minSz: real)
    requires leverage >= 1
    ensures price * faceVal == 0.0 ==> PositionSize(equity, available, kelly, maxPct, leverage, price, faceVal, minSz) == 0.0
    ensures available < MinCostMargin(price, faceVal, minSz, leverage as real) ==>
      PositionSize(equity, available, kelly, maxPct, leverage, price, faceVal, minSz) == 0.0
  {
  }

  /** An unknown symbol has face value 0 and is never sized. */
  lemma PositionSizeUnknownSymbol(equity: real, available: real, kelly: real, maxPct: real, leverage: nat,
                                  price: real, symbol: string, cache: map<string, InstrumentMeta>)
    requires leverage >= 1 && symbol !in cache
    ensures PositionSize(equity, available, kelly, maxPct, leverage, price,
                         FaceValue(cache, symbol), MinSize(cache, symbol)) == 0.0
  {
    assert FaceValue(cache, symbol) == 0.0;
    assert price * 0.0 == 0.0;
  }

  /** A nonzero size is at least one minimum clip and its margin cost fits the available balance. */
  lemma PositionSizeNonzero(equity: real, available: real, kelly: real, maxPct: real, leverage: nat,
                            price: real, faceVal: real, minSz: real)
    requires leverage >= 1
    ensures var q := PositionSize(equity, available, kelly, maxPct, leverage, price, faceVal, minSz);
      q != 0.0 ==> q >= minSz && OrderCost(q, price, faceVal, leverage as real) <= available
  {
  }

  /** When equity · pct exceeds the available balance, the margin is exactly 95 % of it. */
  lemma PositionSizeCappedMargin(equity: real, available: real, kelly: real, maxPct: real, leverage: nat,
                                 price: real, faceVal: real, minSz: real)
    requires leverage >= 1
    requires equity * ActualPct(kelly, maxPct) > available
    ensures var q := PositionSize(equity, available, kelly, maxPct, leverage, price, faceVal, minSz);
      q != 0.0 ==> q == Max(available * 0.95 * (leverage as real) / (price * faceVal), minSz)
  {
  }

  /** Spending `margin` at this leverage costs exactly `margin`. */
  lemma OrderCostOfMargin(margin: real, lev: real, price: real, faceVal: real)
    requires lev > 0.0 && price * faceVal != 0.0
    ensures OrderCost(margin * lev / (price * faceVal), price, faceVal, lev) == margin
  {
    var c := margin * lev / (price * faceVal);
    DivMul(margin * lev, price * faceVal);
    assert c * price * faceVal == c * (price * faceVal);
    DivMul(margin, lev);
    assert (margin * lev) / lev == margin;
  }

  /** Unless the minimum-clip bump applies, the order's margin cost is exactly the chosen margin. */
  lemma PositionSizeSpendsMargin(equity: real, available: real, kelly: real, maxPct: real, leverage: nat,
                                 price: real, faceVal: real, minSz: real)
    requires leverage >= 1
    requires PositionSize(equity, available, kelly, maxPct, leverage, price, faceVal, minSz) > Base.Max(minSz, 0.0)
    ensures var q := PositionSize(equity, available, kelly, maxPct, leverage, price, faceVal, minSz);
      OrderCost(q, price, faceVal, leverage as real) == Margin(equity, available, ActualPct(kelly, maxPct))
  {
    var lev := leverage as real;
    var m := Margin(equity, available, ActualPct(kelly, maxPct));
    assert price * faceVal != 0.0;
    ContractsForClip(m, lev, price, faceVal, minSz);
    OrderCostOfMargin(m, lev, price, faceVal);
  }

  /** Equity 10000, available 9000, Kelly 0.30, cap 20 %, leverage 5, price 100, face 1, minimum 1: 75 contracts. */
  lemma PositionSizeExample()
    ensures PositionSize(10000.0, 9000.0, 0.30, 0.20, 5, 100.0, 1.0, 1.0) == 75.0
  {
    assert ActualPct(0.30, 0.20) == 0.15;
    assert Margin(10000.0, 9000.0, 0.15) == 1500.0;
  }

  // ---------------------------------------------------------------------------
  // Win-rate soft cap
  // ---------------------------------------------------------------------------

  const WinRateCap: real := 0.75

  /**
   * A win rate above 0.75 is lowered to 0.75 and the Kelly fraction
   * recomputed.  The loop applies it in the Buy/Sell arm only (RoutedDecision).
   */
  function CapWinRate(d: AiDecision): (r: AiDecision)
    ensures r.action == d.action && r.tpPct == d.tpPct && r.slPct == d.slPct && r.leverage == d.leverage
    ensures r.riskRewardRatio == d.riskRewardRatio && r.reason == d.reason
    ensures r.winRate <= WinRateCap || r == d
  {
    if d.winRate > WinRateCap then
      d.(winRate := WinRateCap, kellyFraction := Kelly(WinRateCap, d.riskRewardRatio))
    else d
  }

  /** The cap touches nothing at or below 0.75, and above it leaves 0.75 − 0.25/b (0 without positive odds). */
  lemma CapWinRateCases(d: AiDecision)
    ensures d.winRate <= WinRateCap ==> CapWinRate(d) == d
    ensures d.winRate > WinRateCap && d.riskRewardRatio > 0.0 ==>
      CapWinRate(d).winRate == WinRateCap && CapWinRate(d).kellyFraction == 0.75 - 0.25 / d.riskRewardRatio
    ensures d.winRate > WinRateCap && d.riskRewardRatio <= 0.0 ==> CapWinRate(d).kellyFraction == 0.0
  {
  }

  lemma DivStrict(x: real, y: real, b: real)
    requires x < y && b > 0.0
    ensures x / b < y / b
  {
    DivMul(x, b);
    DivMul(y, b);
    MulOrder(x / b, y / b, b);
  }

  /** With positive odds the Kelly fraction grows with the win rate, so the cap lowers it. */
  lemma KellyIncreasing(p: real, q: real, b: real)
    requires p < q && b > 0.0
    ensures Kelly(p, b) < Kelly(q, b)
  {
    DivStrict(1.0 - q, 1.0 - p, b);
  }

  /** The cap lowers the Kelly fraction that the decision parser computed. */
  lemma CapWinRateLowersKelly(d: AiDecision)
    requires d.winRate > WinRateCap && d.riskRewardRatio > 0.0
    requires d.kellyFraction == Kelly(d.winRate, d.riskRewardRatio)
    ensures CapWinRate(d).kellyFraction < d.kellyFraction
  {
    KellyIncreasing(WinRateCap, d.winRate, d.riskRewardRatio);
  }

  /**
   * The win-rate cap acts after the parser's forced HOLD, so the fraction it
   * recomputes may be negative for an order that still goes ahead: with
   * p = 0.9 and b = 0.2 the parsed fraction is 0.4, the capped one −0.5, and
   * the sizer then takes its 1 % floor.
   */
  lemma CappedKellyCanBeNegative(maxPct: real)
    requires maxPct >= MinOrderPct
    ensures Kelly(0.9, 0.2) == 0.4
    ensures Kelly(WinRateCap, 0.2) == -0.5
    ensures ActualPct(Kelly(WinRateCap, 0.2), maxPct) == MinOrderPct
  {
  }

  // ---------------------------------------------------------------------------
  // Drawdown alert and balance
  // ---------------------------------------------------------------------------

  const DefaultMaxDrawdown: real := 0.10

  /** `MAX_DRAWDOWN_LIMIT`: 0.10 when unset or unparseable. */
  function MaxDrawdownSetting(text: Option<string>, parseF64: string -> Option<real>): (r: real)
    ensures text.None? ==> r == DefaultMaxDrawdown
    ensures text.Some? && parseF64(text.value).None? ==> r == DefaultMaxDrawdown
  {
    match text
    case None => DefaultMaxDrawdown
    case Some(s) => parseF64(s).GetOr(DefaultMaxDrawdown)
  }

  /** Whether the cycle's balance gives an alert: both positive and a relative loss above the limit. */
  predicate DrawdownAlert(initial: real, equity: real, maxDrawdown: real) {
    initial > 0.0 && equity > 0.0 && (initial - equity) / initial > maxDrawdown
  }

  /** The relative-loss test is `equity < initial · (1 − limit)`, strictly: equality gives no alert. */
  lemma DrawdownAlertIff(initial: real, equity: real, maxDrawdown: real)
    ensures DrawdownAlert(initial, equity, maxDrawdown) <==>
      initial > 0.0 && equity > 0.0 && equity < initial * (1.0 - maxDrawdown)
  {
    if initial > 0.0 {
      var q := (initial - equity) / initial;
      DivMul(initial - equity, initial);
      if q > maxDrawdown {
        MulLeftStrict(maxDrawdown, q, initial);
      } else {
        MulLeft(q, maxDrawdown, initial);
      }
      assert initial * (1.0 - maxDrawdown) == initial - maxDrawdown * initial;
    }
  }

  /** A failed balance fetch reads as zero equity and zero available balance. */
  function CycleBalance(r: Result<BalanceSummary, Error>): (b: (real, real))
    ensures r.Err? ==> b == (0.0, 0.0)
    ensures r.Ok? ==> b == (r.value.totalEquity, r.value.availableBalance)
  {
    match r
    case Ok(s) => (s.totalEquity, s.availableBalance)
    case Err(_) => (0.0, 0.0)
  }

  /** A failed balance fetch never raises the drawdown alert. */
  lemma NoAlertWithoutBalance(initial: real, r: Result<BalanceSummary, Error>, maxDrawdown: real)
    requires r.Err?
    ensures !DrawdownAlert(initial, CycleBalance(r).0, maxDrawdown)
  {
  }

  // ---------------------------------------------------------------------------
  // Prices and volatility
  // ---------------------------------------------------------------------------

  /** A websocket price younger than this many seconds overrides the REST price. */
  const WsFreshSeconds: real := 60.0

  /** A cached websocket tick: its price and age in seconds. */
  datatype Tick = Tick(price: real, ageSecs: real)

  /** The price the decision uses. */
  function EffectivePrice(restPrice: real, cached: Option<Tick>): (r: real)
    ensures cached.Some? && cached.value.ageSecs < WsFreshSeconds ==> r == cached.value.price
    ensures cached.None? || cached.value.ageSecs >= WsFreshSeconds ==> r == restPrice
  {
    match cached
    case Some(t) => if t.ageSecs < WsFreshSeconds then t.price else restPrice
    case None => restPrice
  }

  /** A tick exactly 60 s old is stale. */
  lemma EffectivePriceBoundary(restPrice: real, wsPrice: real)
    ensures EffectivePrice(restPrice, Some(Tick(wsPrice, 60.0))) == restPrice
  {
  }

  /** A symbol's REST snapshot: its price and 14-period ATR; `None` where the fetch failed. */
  datatype Snapshot = Snapshot(price: real, atr14: real)

  /** The ATR as a percentage of the price. */
  function AtrPct(s: Snapshot): real
    requires s.price > 0.0
  {
    (s.atr14 / s.price) * 100.0
  }

  /** The snapshot of symbol `i` was fetched and has a positive price. */
  predicate Priced(snaps: seq<Option<Snapshot>>, i: int) {
    0 <= i < |snaps| && snaps[i].Some? && snaps[i].value.price > 0.0
  }

  /**
   * The loop over the allowed symbols that tracks `max_atr_pct`: symbols
   * whose fetch failed are skipped, and only a positive price counts.  The
   * ATR is taken before the websocket price override.
   */
  method MaxAtrPct(snaps: seq<Option<Snapshot>>) returns (m: real)
    ensures m >= 0.0
    ensures forall i :: Priced(snaps, i) ==> AtrPct(snaps[i].value) <= m
    ensures m == 0.0 || exists i :: Priced(snaps, i) && m == AtrPct(snaps[i].value)
  {
    m := 0.0;
    for k := 0 to |snaps|
      invariant m >= 0.0
      invariant forall i :: Priced(snaps, i) && i < k ==> AtrPct(snaps[i].value) <= m
      invariant m == 0.0 || exists i :: Priced(snaps, i) && i < k && m == AtrPct(snaps[i].value)
    {
      if snaps[k].None? {
        continue;
      }
      var s := snaps[k].value;
      if s.price > 0.0 {
        var current := (s.atr14 / s.price) * 100.0;
        if current > m {
          m := current;
        }
      }
    }
  }

  const MinRestSeconds: real := 60.0
  const U64Max: int := 0xFFFF_FFFF_FFFF_FFFF

  /** Rust's `f as u64` for a nonnegative `f`: truncation, saturating at the top. */
  function SaturatingU64(x: real): (r: nat)
    requires x >= 0.0
    ensures r <= U64Max
    ensures x < U64Max as real ==> r == x.Floor
    ensures x >= U64Max as real ==> r == U64Max
  {
    if x >= U64Max as real then U64Max else x.Floor
  }

  /** The unrounded pause: the base scaled down by volatility relative to 0.5 %, never below 60 s. */
  function AdjustedRest(baseSecs: nat, maxAtrPct: real): (r: real)
    requires maxAtrPct > 0.0
    ensures r >= MinRestSeconds
  {
    Max(baseSecs as real / Max(maxAtrPct / 0.5, 0.5), MinRestSeconds)
  }

  /** `dynamic_rest` in whole seconds. */
  function RestSeconds(baseSecs: nat, maxAtrPct: real): nat {
    if maxAtrPct > 0.0 then SaturatingU64(AdjustedRest(baseSecs, maxAtrPct)) else baseSecs
  }

  /** A base of 1800 s: 900 s at 1 % volatility, 3600 s at 0.1 %, the base itself without a volatility reading. */
  lemma RestSecondsExamples()
    ensures RestSeconds(1800, 1.0) == 900
    ensures RestSeconds(1800, 0.1) == 3600
    ensures RestSeconds(1800, 0.0) == 1800
  {
    assert AdjustedRest(1800, 1.0) == 900.0;
    assert AdjustedRest(1800, 0.1) == 3600.0;
  }

  /** With a volatility reading the pause is at least 60 s and at most twice the base (or 60 s). */
  lemma RestSecondsBounds(baseSecs: nat, maxAtrPct: real)
    requires maxAtrPct > 0.0 && 2 * baseSecs < U64Max
    ensures 60 <= RestSeconds(baseSecs, maxAtrPct)
    ensures RestSeconds(baseSecs, maxAtrPct) <= if 2 * baseSecs > 60 then 2 * baseSecs else 60
  {
    var d := Max(maxAtrPct / 0.5, 0.5);
    var b := baseSecs as real;
    DivAntitone(b, 0.5, d);
    assert b / 0.5 == 2.0 * b;
  }

  lemma DivAntitone(x: real, a: real, b: real)
    requires x >= 0.0 && 0.0 < a <= b
    ensures x / b <= x / a
  {
    DivMul(x, a);
    DivMul(x, b);
    if x / b > x / a {
      MulLeftStrict(x / a, x / b, b);
      MulLeft(a, b, x / a);
    }
  }

  lemma FloorMonotone(x: real, y: real)
    requires x <= y
    ensures x.Floor <= y.Floor
  {
  }

  /** Higher volatility never lengthens the pause. */
  lemma RestSecondsMonotone(baseSecs: nat, a1: real, a2: real)
    requires 0.0 < a1 <= a2
    ensures RestSeconds(baseSecs, a2) <= RestSeconds(baseSecs, a1)
  {
    var d1 := Max(a1 / 0.5, 0.5);
    var d2 := Max(a2 / 0.5, 0.5);
    DivAntitone(baseSecs as real, d1, d2);
    var r1 := AdjustedRest(baseSecs, a1);
    var r2 := AdjustedRest(baseSecs, a2);
    assert r2 <= r1;
    FloorMonotone(r2, r1);
  }

  // ---------------------------------------------------------------------------
  // Routing a decision to an order
  // ---------------------------------------------------------------------------

  /** `p.symbol == symbol && p.side == side && p.size > 0.0`. */
  predicate Holds(p: PositionSummary, symbol: string, side: string) {
    p.symbol == symbol && p.side == side && p.size > 0.0
  }

  /** Position `i` is the first one held on this symbol and side. */
  predicate FirstHeld(ps: seq<PositionSummary>, symbol: string, side: string, i: int) {
    0 <= i < |ps| && Holds(ps[i], symbol, side) && forall j :: 0 <= j < i ==> !Holds(ps[j], symbol, side)
  }

  /** `iter().find(...)`: the first position held on this symbol and side. */
  function FindPosition(ps: seq<PositionSummary>, symbol: string, side: string): (r: Option<PositionSummary>)
    ensures r.None? <==> forall j :: 0 <= j < |ps| ==> !Holds(ps[j], symbol, side)
    ensures r.Some? ==> exists i :: FirstHeld(ps, symbol, side, i) && ps[i] == r.value
  {
    if |ps| == 0 then None
    else if Holds(ps[0], symbol, side) then
      assert FirstHeld(ps, symbol, side, 0);
      Some(ps[0])
    else
      var r := FindPosition(ps[1..], symbol, side);
      if r.Some? then
        var i :| FirstHeld(ps[1..], symbol, side, i) && ps[1..][i] == r.value;
        assert FirstHeld(ps, symbol, side, i + 1);
        r
      else
        assert forall j :: 1 <= j < |ps| ==> ps[j] == ps[1..][j - 1];
        r
  }

  /** The arguments of one `execute_order` call. */
  datatype OrderRequest = OrderRequest(
    symbol: string, side: string, posSide: string, size: real, price: real,
    tpPct: real, slPct: real, leverage: Option<nat>)

  /**
   * The order a decision leads to, once `qty` has been sized for an opening
   * action: Buy/Sell with a positive size opens with the decision's bracket
   * and leverage; CloseLong/CloseShort close a held position at market with
   * no bracket; anything else places nothing.
   */
  function PlanOrder(symbol: string, d: AiDecision, qty: real, price: real,
                     longPos: Option<PositionSummary>, shortPos: Option<PositionSummary>): Option<OrderRequest>
  {
    match d.action
    case Buy =>
      if qty > 0.0 then Some(OrderRequest(symbol, "buy", "long", qty, price, d.tpPct, d.slPct, Some(d.leverage))) else None
    case Sell =>
      if qty > 0.0 then Some(OrderRequest(symbol, "sell", "short", qty, price, d.tpPct, d.slPct, Some(d.leverage))) else None
    case CloseLong =>
      if longPos.Some? then Some(OrderRequest(symbol, "sell", "long", longPos.value.size, price, 0.0, 0.0, None)) else None
    case CloseShort =>
      if shortPos.Some? then Some(OrderRequest(symbol, "buy", "short", shortPos.value.size, price, 0.0, 0.0, None)) else None
    case Hold => None
  }

  /** An order is opened iff the action opens and the size is positive; a long buys, a short sells. */
  lemma PlanOrderOpens(symbol: string, d: AiDecision, qty: real, price: real,
                       longPos: Option<PositionSummary>, shortPos: Option<PositionSummary>)
    ensures IsOpen(d.action) ==> (PlanOrder(symbol, d, qty, price, longPos, shortPos).Some? <==> qty > 0.0)
    ensures var o := PlanOrder(symbol, d, qty, price, longPos, shortPos);
      o.Some? && IsOpen(d.action) ==>
        o.value.size == qty && o.value.leverage == Some(d.leverage) && o.value.tpPct == d.tpPct && o.value.slPct == d.slPct
        && (o.value.side, o.value.posSide) == (if d.action == Buy then ("buy", "long") else ("sell", "short"))
  {
  }

  /** A close needs a held position of that side and targets its whole size; HOLD places nothing. */
  lemma PlanOrderCloses(symbol: string, d: AiDecision, qty: real, price: real,
                        longPos: Option<PositionSummary>, shortPos: Option<PositionSummary>)
    ensures d.action == CloseLong ==>
      PlanOrder(symbol, d, qty, price, longPos, shortPos) ==
        (if longPos.Some? then Some(OrderRequest(symbol, "sell", "long", longPos.value.size, price, 0.0, 0.0, None)) else None)
    ensures d.action == CloseShort ==>
      PlanOrder(symbol, d, qty, price, longPos, shortPos) ==
        (if shortPos.Some? then Some(OrderRequest(symbol, "buy", "short", shortPos.value.size, price, 0.0, 0.0, None)) else None)
    ensures d.action == Hold ==> PlanOrder(symbol, d, qty, price, longPos, shortPos).None?
  {
  }

  /** Closing orders carry no take-profit/stop-loss bracket and set no leverage. */
  lemma ClosingOrdersHaveNoBracket(symbol: string, d: AiDecision, qty: real, price: real,
                                   longPos: Option<PositionSummary>, shortPos: Option<PositionSummary>)
    requires d.action == CloseLong || d.action == CloseShort
    requires PlanOrder(symbol, d, qty, price, longPos, shortPos).Some?
    ensures var o := PlanOrder(symbol, d, qty, price, longPos, shortPos).value;
      BracketPrices(o.posSide, o.price, o.tpPct, o.slPct).None? && o.leverage.None?
  {
    var o := PlanOrder(symbol, d, qty, price, longPos, shortPos).value;
    NoBracketWithoutBoth(o.posSide, o.price, o.tpPct, o.slPct);
  }

  // ---------------------------------------------------------------------------
  // One symbol's step of a cycle
  // ---------------------------------------------------------------------------

  /** The decision as the order logic uses it: Buy and Sell pass through the win-rate cap, the rest unchanged. */
  function RoutedDecision(d: AiDecision): (r: AiDecision)
    ensures IsOpen(d.action) ==> r == CapWinRate(d)
    ensures !IsOpen(d.action) ==> r == d
    ensures r.action == d.action && r.leverage == d.leverage
  {
    if IsOpen(d.action) then CapWinRate(d) else d
  }

  /** The alert message of the cycle: only when the drawdown test holds, with the loss as a percentage. */
  function DrawdownAlertText(initial: real, equity: real, maxDrawdown: real): (r: Option<string>)
    ensures r.Some? <==> DrawdownAlert(initial, equity, maxDrawdown)
  {
    if DrawdownAlert(initial, equity, maxDrawdown) then
      Some("🔥 严重警告: 最大回撤触发! (" + FormatFixedText((initial - equity) / initial * 100.0, 2) + "%). 系统已暂停.")
    else None
  }

  /** What one cycle does for a symbol: the alert it sends, and the order it plans. */
  datatype CycleOutcome = CycleOutcome(alert: Option<string>, order: Option<OrderRequest>)

  /**
   * The balance read, the drawdown check and one symbol's order logic, in
   * the order of the loop in main.rs.  The alert only sends a message: the
   * order logic that follows runs whatever the check found.
   */
  function CycleStep(initial: real, maxDrawdown: real, balance: Result<BalanceSummary, Error>, maxPct: real,
                     symbol: string, d: AiDecision, price: real, faceVal: real, minSz: real,
                     longPos: Option<PositionSummary>, shortPos: Option<PositionSummary>): (c: CycleOutcome)
    requires d.leverage >= 1
    ensures c.alert.Some? <==> DrawdownAlert(initial, CycleBalance(balance).0, maxDrawdown)
  {
    var (equity, available) := CycleBalance(balance);
    var routed := RoutedDecision(d);
    var qty := PositionSize(equity, available, routed.kellyFraction, maxPct, routed.leverage, price, faceVal, minSz);
    CycleOutcome(DrawdownAlertText(initial, equity, maxDrawdown), PlanOrder(symbol, routed, qty, price, longPos, shortPos))
  }

  /** The planned order does not depend on the baseline or the drawdown limit, so an alert never halts trading. */
  lemma AlertDoesNotGateOrders(initial: real, maxDrawdown: real, initial': real, maxDrawdown': real,
                               balance: Result<BalanceSummary, Error>, maxPct: real,
                               symbol: string, d: AiDecision, price: real, faceVal: real, minSz: real,
                               longPos: Option<PositionSummary>, shortPos: Option<PositionSummary>)
    requires d.leverage >= 1
    ensures CycleStep(initial, maxDrawdown, balance, maxPct, symbol, d, price, faceVal, minSz, longPos, shortPos).order
         == CycleStep(initial', maxDrawdown', balance, maxPct, symbol, d, price, faceVal, minSz, longPos, shortPos).order
  {
  }

  /** With the alert raised, a held long is still closed at its whole size. */
  lemma AlertedCycleStillCloses(initial: real, maxDrawdown: real, balance: Result<BalanceSummary, Error>, maxPct: real,
                                symbol: string, d: AiDecision, price: real, faceVal: real, minSz: real,
                                longPos: Option<PositionSummary>, shortPos: Option<PositionSummary>)
    requires d.leverage >= 1 && d.action == CloseLong && longPos.Some?
    requires DrawdownAlert(initial, CycleBalance(balance).0, maxDrawdown)
    ensures var c := CycleStep(initial, maxDrawdown, balance, maxPct, symbol, d, price, faceVal, minSz, longPos, shortPos);
      c.alert.Some? && c.order == Some(OrderRequest(symbol, "sell", "long", longPos.value.size, price, 0.0, 0.0, None))
  {
  }

  /** With the alert raised, an opening decision still places its order whenever it sizes to a positive quantity. */
  lemma AlertedCycleStillOpens(initial: real, maxDrawdown: real, balance: Result<BalanceSummary, Error>, maxPct: real,
                               symbol: string, d: AiDecision, price: real, faceVal: real, minSz: real,
                               longPos: Option<PositionSummary>, shortPos: Option<PositionSummary>)
    requires d.leverage >= 1 && IsOpen(d.action)
    requires DrawdownAlert(initial, CycleBalance(balance).0, maxDrawdown)
    requires PositionSize(CycleBalance(balance).0, CycleBalance(balance).1, CapWinRate(d).kellyFraction, maxPct,
                          d.leverage, price, faceVal, minSz) > 0.0
    ensures var c := CycleStep(initial, maxDrawdown, balance, maxPct, symbol, d, price, faceVal, minSz, longPos, shortPos);
      c.alert.Some? && c.order.Some? && c.order.value.symbol == symbol && c.order.value.leverage == Some(d.leverage)
  {
    var routed := RoutedDecision(d);
    var qty := PositionSize(CycleBalance(balance).0, CycleBalance(balance).1, routed.kellyFraction, maxPct,
                            routed.leverage, price, faceVal, minSz);
    PlanOrderOpens(symbol, routed, qty, price, longPos, shortPos);
  }

  // ---------------------------------------------------------------------------
  // Bounded retry loops
  // ---------------------------------------------------------------------------

  const MaxOrderAttempts: nat := 10
  const OrderRetrySleepMs: nat := 1000
  const MaxBaselineAttempts: nat := 5
  const BaselineRetrySleepMs: nat := 5000

  /**
   * A `for attempt in 1..=n` loop that stops at the first Ok and sleeps
   * `sleepMs` after every Err, the last one included.  `outcome(i)` is what
   * attempt i + 1 returns (the remote state may differ between attempts).
   */
  method RetryUntilOk<T>(outcome: nat -> Result<T, Error>, maxAttempts: nat, sleepMs: nat)
    returns (r: Option<T>, attempts: nat, sleptMs: nat)
    requires maxAttempts >= 1
    ensures 1 <= attempts <= maxAttempts
    ensures forall i :: 0 <= i < attempts - 1 ==> outcome(i).Err?
    ensures r.Some? ==> outcome(attempts - 1) == Ok(r.value) && sleptMs == sleepMs * (attempts - 1)
    ensures r.None? ==> attempts == maxAttempts && outcome(attempts - 1).Err? && sleptMs == sleepMs * maxAttempts
  {
    r, attempts, sleptMs := None, 0, 0;
    while attempts < maxAttempts && r.None?
      invariant attempts <= maxAttempts
      invariant r.Some? ==> 1 <= attempts && outcome(attempts - 1) == Ok(r.value) && sleptMs == sleepMs * (attempts - 1)
      invariant r.None? ==> sleptMs == sleepMs * attempts
      invariant forall i :: 0 <= i < (if r.Some? then attempts - 1 else attempts) ==> outcome(i).Err?
    {
      var res := outcome(attempts);
      attempts := attempts + 1;
      if res.Ok? {
        r := Some(res.value);
      } else {
        sleptMs := sleptMs + sleepMs;
      }
    }
  }

  /** When every attempt fails, all of them are made and each is followed by its sleep. */
  method RetryAllFail<T>(outcome: nat -> Result<T, Error>, maxAttempts: nat, sleepMs: nat)
    returns (r: Option<T>, attempts: nat, sleptMs: nat)
    requires maxAttempts >= 1
    requires forall i :: outcome(i).Err?
    ensures r.None? && attempts == maxAttempts && sleptMs == sleepMs * maxAttempts
  {
    r, attempts, sleptMs := RetryUntilOk(outcome, maxAttempts, sleepMs);
  }

  /** A size that formats to zero fails on every attempt, whatever the exchange answers. */
  lemma OrderSizeTooSmallEveryAttempt(t: TradeExecutor, o: OrderRequest, ex: Exchange)
    requires NumTextValue(FormatSz(t.instruments, o.symbol, o.size)) == 0.0
    ensures t.ExecuteOrderResult(o.symbol, o.side, o.posSide, o.size, o.price, o.tpPct, o.slPct, ex)
      == Err(SizeTooSmall(o.size, FormatSz(t.instruments, o.symbol, o.size)))
  {
  }

  /** The baseline from attempt i + 1 on: the equity of the first successful fetch, 0 when none of the five succeeds. */
  function BaselineFrom(fetch: nat -> Result<BalanceSummary, Error>, i: nat): (c: real)
    ensures i >= MaxBaselineAttempts ==> c == 0.0
    decreases MaxBaselineAttempts - i
  {
    if i >= MaxBaselineAttempts then 0.0
    else if fetch(i).Ok? then fetch(i).value.totalEquity
    else BaselineFrom(fetch, i + 1)
  }

  /** Failures before attempt k + 1 skip to it: the baseline is decided from there on. */
  lemma {:induction false} BaselineFromSkips(fetch: nat -> Result<BalanceSummary, Error>, i: nat, k: nat)
    requires i <= k
    requires forall j :: i <= j < k ==> fetch(j).Err?
    ensures BaselineFrom(fetch, i) == BaselineFrom(fetch, k)
    decreases k - i
  {
    if i < k {
      assert fetch(i).Err?;
      BaselineFromSkips(fetch, i + 1, k);
    }
  }

  /**
   * The order loop of main.rs for a size that formats to zero: each of the
   * ten attempts fails with the same SizeTooSmall error, so the loop makes
   * all of them, sleeps 1 s after each, and ends without an order.
   */
  method OrderSizeTooSmallExhaustsRetries(t: TradeExecutor, o: OrderRequest, exs: nat -> Exchange)
    returns (r: Option<OrderResult>, attempts: nat, sleptMs: nat, lastError: Error)
    requires NumTextValue(FormatSz(t.instruments, o.symbol, o.size)) == 0.0
    ensures lastError == SizeTooSmall(o.size, FormatSz(t.instruments, o.symbol, o.size))
    ensures forall i: nat ::
      t.ExecuteOrderResult(o.symbol, o.side, o.posSide, o.size, o.price, o.tpPct, o.slPct, exs(i)) == Err(lastError)
    ensures r.None? && attempts == MaxOrderAttempts && sleptMs == OrderRetrySleepMs * MaxOrderAttempts
  {
    lastError := SizeTooSmall(o.size, FormatSz(t.instruments, o.symbol, o.size));
    forall i: nat
      ensures t.ExecuteOrderResult(o.symbol, o.side, o.posSide, o.size, o.price, o.tpPct, o.slPct, exs(i)) == Err(lastError)
    {
      OrderSizeTooSmallEveryAttempt(t, o, exs(i));
    }
    var err := lastError;
    r, attempts, sleptMs := RetryAllFail((i: nat) => Err(err), MaxOrderAttempts, OrderRetrySleepMs);
  }

  /**
   * The `for i in 1..=5` loop that establishes the risk baseline: the first
   * successful balance fetch gives the initial capital; each failure sleeps
   * 5 s; five failures leave it at 0.
   */
  method EstablishBaseline(fetch: nat -> Result<BalanceSummary, Error>)
    returns (initialCapital: real, attempts: nat, sleptMs: nat)
    ensures 1 <= attempts <= MaxBaselineAttempts
    ensures forall i :: 0 <= i < attempts - 1 ==> fetch(i).Err?
    ensures fetch(attempts - 1).Ok? ==>
      initialCapital == fetch(attempts - 1).value.totalEquity && sleptMs == BaselineRetrySleepMs * (attempts - 1)
    ensures fetch(attempts - 1).Err? ==>
      initialCapital == 0.0 && attempts == MaxBaselineAttempts && sleptMs == BaselineRetrySleepMs * MaxBaselineAttempts
    ensures initialCapital == BaselineFrom(fetch, 0)
  {
    var r;
    r, attempts, sleptMs := RetryUntilOk(fetch, MaxBaselineAttempts, BaselineRetrySleepMs);
    initialCapital := if r.Some? then r.value.totalEquity else 0.0;
    BaselineFromSkips(fetch, 0, attempts - 1);
    if r.None? {
      BaselineFromSkips(fetch, 0, attempts);
    }
  }

  /** How startup ends: aborted by a failed instrument fetch, or running with a baseline. */
  datatype Startup = Aborted(error: Error) | Running(initialCapital: real, criticalAlert: bool)

  /**
   * Startup: the instrument cache must load or the program stops; then the
   * baseline is established, and a baseline of 0 raises the critical alert
   * (a fetched equity of exactly 0 included).
   */
  method Start(t: TradeExecutor, instrumentsExchange: Exchange, baselineExchanges: nat -> Exchange)
    returns (s: Startup)
    modifies t
    ensures var call := ApiCall(HttpGet, InstrumentsPath, EmptyObject);
      t.CallOutcome(call, instrumentsExchange).result.Err? ==>
        s == Aborted(t.CallOutcome(call, instrumentsExchange).result.error) && t.instruments == old(t.instruments)
    ensures var call := ApiCall(HttpGet, InstrumentsPath, EmptyObject);
      t.CallOutcome(call, instrumentsExchange).result.Ok? ==>
        s.Running? && t.instruments == CacheOf(DataItems(t.CallOutcome(call, instrumentsExchange).result.value), t.codecs)
    ensures s.Running? ==> s.initialCapital == BaselineFrom((i: nat) => t.AccountSummaryOf(baselineExchanges(i)), 0)
    ensures s.Running? ==> (s.criticalAlert <==> s.initialCapital == 0.0)
  {
    var init := t.InitInstrumentsCache(instrumentsExchange);
    if init.Err? {
      return Aborted(init.error);
    }
    var initialCapital, _, _ := EstablishBaseline((i: nat) => t.AccountSummaryOf(baselineExchanges(i)));
    s := Running(initialCapital, initialCapital == 0.0);
  }
}
