/**
 * The trade executor (src/modules/action/executor.rs): the signed request
 * client with its retry and classification rules, the instrument-metadata
 * cache with the size and price formatting it governs, order execution with
 * an attached take-profit/stop-loss bracket, and the account queries.
 *
 * The exchange is a value of type `Exchange`: its clock, the HMAC-SHA256 +
 * base64 signer, and the outcome of the n-th attempt of a request.
 */
module Executor {
  import opened Base
  import opened Text
  import opened Json
  import opened Decimal

  // ---------------------------------------------------------------------------
  // Records
  // ---------------------------------------------------------------------------

  datatype InstrumentMeta = InstrumentMeta(faceValue: real, tickSize: real, minSz: real, lotSz: real)

  datatype PositionSummary = PositionSummary(
    symbol: string, size: real, upl: real, side: string,
    leverage: nat, notionalUsd: real, marginUsd: real)

  datatype PnlRecord = PnlRecord(symbol: string, pnl: real, fee: real, ts: int, typeName: string, ordId: string)

  datatype OrderResult = OrderResult(orderId: string, response: string)

  datatype BalanceSummary = BalanceSummary(totalEquity: real, availableBalance: real)

  datatype Error =
    | BusinessError(code: Value, msg: Value)   // a 2xx answer whose `code` is not "0"
    | RequestFailed(path: string)              // three transport failures
    | SizeTooSmall(size: real, szText: NumText) // the formatted size reads as 0
    | BadNumber(field: string)                 // a balance field that does not parse

  // ---------------------------------------------------------------------------
  // Instrument metadata lookups and formatting (pure over the cache contents)
  // ---------------------------------------------------------------------------

  /** `get_face_value`: 0 for a symbol without metadata. */
  function FaceValue(cache: map<string, InstrumentMeta>, symbol: string): (r: real)
    ensures symbol in cache ==> r == cache[symbol].faceValue
    ensures symbol !in cache ==> r == 0.0
  {
    if symbol in cache then cache[symbol].faceValue else 0.0
  }

  /** `get_min_size`: 1 for a symbol without metadata. */
  function MinSize(cache: map<string, InstrumentMeta>, symbol: string): (r: real)
    ensures symbol in cache ==> r == cache[symbol].minSz
    ensures symbol !in cache ==> r == 1.0
  {
    if symbol in cache then cache[symbol].minSz else 1.0
  }

  const SizeEpsilon: real := 0.000000001

  /** The number of whole lots in `size`, tolerating a 1e-9 shortfall. */
  function LotSteps(lot: real, size: real): int
    requires lot > 0.0
  {
    ((size + SizeEpsilon) / lot).Floor
  }

  /** `floor((size + 1e-9) / lot) * lot`. */
  function AlignedSize(lot: real, size: real): real
    requires lot > 0.0
  {
    LotSteps(lot, size) as real * lot
  }

  lemma AlignedSizeBounds(lot: real, size: real)
    requires lot > 0.0
    ensures AlignedSize(lot, size) <= size + SizeEpsilon
    ensures LotSteps(lot, size) as real <= (size + SizeEpsilon) / lot < LotSteps(lot, size) as real + 1.0
    ensures size >= 0.0 ==> LotSteps(lot, size) >= 0 && AlignedSize(lot, size) >= 0.0
  {
    // the products must be stated on the very terms of the definitions
    DivMul(size + SizeEpsilon, lot);
    FloorTimes(LotSteps(lot, size), (size + SizeEpsilon) / lot, lot);
    ProductSign((size + SizeEpsilon) / lot, lot);
    ProductSign(LotSteps(lot, size) as real, lot);
  }

  /** With lots larger than the epsilon, aligning an aligned size returns it. */
  lemma AlignedSizeIdempotent(lot: real, size: real)
    requires lot > SizeEpsilon
    ensures AlignedSize(lot, AlignedSize(lot, size)) == AlignedSize(lot, size)
  {
    var n := LotSteps(lot, size);
    var e := SizeEpsilon / lot;
    assert e * lot == SizeEpsilon;
    assert e < 1.0 by {
      if e >= 1.0 { MulAtLeastOne(e, lot); }
    }
    ProductSign(e, lot);
    var a := AlignedSize(lot, size);
    assert a == n as real * lot;
    assert (a + SizeEpsilon) / lot == n as real + e;
    assert (n as real + e).Floor == n;
    assert LotSteps(lot, a) == n;
  }

  /** `format_sz`: the size floored to the lot and printed with the lot's precision, or printed as is. */
  function FormatSz(cache: map<string, InstrumentMeta>, symbol: string, size: real): (t: NumText)
    ensures (symbol !in cache || cache[symbol].lotSz <= 0.0) ==> t == Shortest(size)
    ensures symbol in cache && cache[symbol].lotSz > 0.0 ==>
      t.Fixed? && t.scale == SizeDecimals(cache[symbol].lotSz)
  {
    if symbol in cache && cache[symbol].lotSz > 0.0 then
      var lot := cache[symbol].lotSz;
      FormatFixed(AlignedSize(lot, size), SizeDecimals(lot))
    else
      Shortest(size)
  }

  /** The precision `format_sz` uses for a lot size. */
  function SizeDecimals(lot: real): nat
    requires lot > 0.0
  {
    if lot < 1.0 then LogDecimals(lot) else 0
  }

  lemma SizeDecimalsOfPowerOfTen(k: nat)
    requires k < MaxDecimals
    ensures SizeDecimals(Unscale(1.0, k)) == k
  {
    ScaleOfPowerOfTen(k, 0);
    if k > 0 { LogDecimalsOfPowerOfTen(k); }
  }

  lemma AlignedSizeOfDecimalLot(lot: real, size: real, k: nat)
    requires lot == Unscale(1.0, k)
    ensures AlignedSize(lot, size) == Unscale(LotSteps(lot, size) as real, k)
  {
    UnscaleOfMultiple(LotSteps(lot, size) as real, k);
  }

  /** Lots of 10^-k: the printed size is the whole number of lots with k digits after the point, read back exactly. */
  lemma FormatSzExactForDecimalLots(cache: map<string, InstrumentMeta>, symbol: string, size: real, k: nat)
    requires k < MaxDecimals && symbol in cache && cache[symbol].lotSz == Unscale(1.0, k)
    ensures FormatSz(cache, symbol, size) == Fixed(LotSteps(cache[symbol].lotSz, size), k)
    ensures NumTextValue(FormatSz(cache, symbol, size)) == AlignedSize(cache[symbol].lotSz, size)
  {
    var lot := cache[symbol].lotSz;
    SizeDecimalsOfPowerOfTen(k);
    AlignedSizeOfDecimalLot(lot, size, k);
    FormatFixedExact(LotSteps(lot, size), k);
  }

  /** Shifted by the lot's precision, one lot is at least 1. */
  lemma SizeDecimalsReachOne(lot: real)
    requires lot > 0.0 && Scale(lot, MaxDecimals) >= 1.0
    ensures Scale(lot, SizeDecimals(lot)) >= 1.0
  {
  }

  /** n lots, shifted so that one lot is at least 1, round to 0 exactly when n is 0. */
  lemma RoundedLotsZeroIff(lot: real, size: real, d: nat)
    requires lot > 0.0 && Scale(lot, d) >= 1.0
    ensures RoundHalfEven(Scale(AlignedSize(lot, size), d)) == 0 <==> LotSteps(lot, size) == 0
  {
    var n := LotSteps(lot, size);
    var x := n as real * lot;
    assert AlignedSize(lot, size) == x;
    if n > 0 {
      MulAtLeastOne(n as real, lot);
      assert x >= lot;
      ScaleMonotone(lot, x, d);
      assert Scale(x, d) >= 1.0;
      assert RoundHalfEven(Scale(x, d)) as real >= 0.5;
    } else if n < 0 {
      MulAtMostMinusOne(n as real, lot);
      ScaleMonotone(x, -lot, d);
      ScaleNegate(lot, d);
    } else {
      ScaleOfZero(d);
    }
  }

  /** A lot of 0.01 and a size of 0.127 give the text "0.12". */
  lemma FormatSzExample()
    ensures var cache := map["BTC-USDT-SWAP" := InstrumentMeta(0.01, 0.1, 0.01, 0.01)];
      FormatSz(cache, "BTC-USDT-SWAP", 0.127) == Fixed(12, 2) &&
      RenderNumText(FormatSz(cache, "BTC-USDT-SWAP", 0.127), x => "") == "0.12"
  {
    var cache := map["BTC-USDT-SWAP" := InstrumentMeta(0.01, 0.1, 0.01, 0.01)];
    assert Unscale(1.0, 2) == 0.01;
    FormatSzExactForDecimalLots(cache, "BTC-USDT-SWAP", 0.127, 2);
    assert (0.127 + SizeEpsilon) / 0.01 == 12.7000001;
    assert LotSteps(0.01, 0.127) == 12;
    assert NatToString(12) == "12";
  }

  /**
   * The zero-size guard: with metadata and a positive lot (at least 10^-400,
   * as every positive `f64` is), the printed size reads as 0 exactly when
   * not one whole lot fits.
   */
  lemma FormatSzZeroIff(cache: map<string, InstrumentMeta>, symbol: string, size: real)
    requires symbol in cache && cache[symbol].lotSz > 0.0 && Scale(cache[symbol].lotSz, MaxDecimals) >= 1.0
    ensures NumTextValue(FormatSz(cache, symbol, size)) == 0.0 <==> LotSteps(cache[symbol].lotSz, size) == 0
  {
    var lot := cache[symbol].lotSz;
    var d := SizeDecimals(lot);
    SizeDecimalsReachOne(lot);
    RoundedLotsZeroIff(lot, size, d);
    UnscaleZeroIff(RoundHalfEven(Scale(AlignedSize(lot, size), d)) as real, d);
  }

  /** Without metadata the guard sees the requested size itself. */
  lemma FormatSzUnknownSymbol(cache: map<string, InstrumentMeta>, symbol: string, size: real)
    requires symbol !in cache
    ensures NumTextValue(FormatSz(cache, symbol, size)) == size
  {
  }

  /** The `{:.*}` precision used for a price when no tick size is known. */
  function FallbackPriceDecimals(price: real): (d: nat)
    ensures price < 0.01 ==> d == 6
    ensures 0.01 <= price < 1.0 ==> d == 4
    ensures 1.0 <= price < 10.0 ==> d == 3
    ensures price >= 10.0 ==> d == 2
  {
    if price < 0.01 then 6 else if price < 1.0 then 4 else if price < 10.0 then 3 else 2
  }

  /** `format_price_dynamic`: the tick size's precision, or the price-magnitude fallback. */
  function FormatPrice(cache: map<string, InstrumentMeta>, symbol: string, price: real): (t: NumText)
    ensures t.Fixed?
    ensures symbol in cache && cache[symbol].tickSize > 0.0 ==> t.scale == LogDecimals(cache[symbol].tickSize)
    ensures !(symbol in cache && cache[symbol].tickSize > 0.0) ==> t.scale == FallbackPriceDecimals(price)
  {
    var decimals := if symbol in cache && cache[symbol].tickSize > 0.0
                    then LogDecimals(cache[symbol].tickSize) else FallbackPriceDecimals(price);
    FormatFixed(price, decimals)
  }

  /** The printed price is within half a unit of its last digit. */
  lemma FormatPriceError(cache: map<string, InstrumentMeta>, symbol: string, price: real)
    ensures var t := FormatPrice(cache, symbol, price);
      -Unscale(0.5, t.scale) <= NumTextValue(t) - price <= Unscale(0.5, t.scale)
  {
    var t := FormatPrice(cache, symbol, price);
    FormatFixedError(price, t.scale);
  }

  /** With a known tick size, re-formatting a printed price prints it again. */
  lemma FormatPriceIdempotentWithTick(cache: map<string, InstrumentMeta>, symbol: string, price: real)
    requires symbol in cache && cache[symbol].tickSize > 0.0
    ensures FormatPrice(cache, symbol, NumTextValue(FormatPrice(cache, symbol, price))) == FormatPrice(cache, symbol, price)
  {
    FormatFixedIdempotent(price, LogDecimals(cache[symbol].tickSize));
  }

  // ---------------------------------------------------------------------------
  // Signed requests
  // ---------------------------------------------------------------------------

  datatype HttpMethod = HttpGet | HttpPost

  function MethodName(m: HttpMethod): string {
    match m
    case HttpGet => "GET"
    case HttpPost => "POST"
  }

  /** A request as it goes on the wire: URL, the four OK-ACCESS headers, the simulated-trading flag and the JSON body. */
  datatype HttpRequest = HttpRequest(
    verb: HttpMethod, url: string,
    key: string, sign: string, timestamp: string, passphrase: string,
    simulated: bool, body: Option<Value>)

  datatype HttpOutcome = NetworkError | Response(status: nat, text: string)

  /**
   * The exchange: the timestamp taken for a call, the HMAC-SHA256 + base64
   * signer (secret, message), and the outcome of attempt n of a request.
   */
  datatype Exchange = Exchange(
    timestamp: (HttpMethod, string) -> string,
    hmacBase64: (string, string) -> string,
    respond: (HttpRequest, nat) -> HttpOutcome)

  /** One top-level call of `send_signed_request`. */
  datatype ApiCall = ApiCall(verb: HttpMethod, path: string, body: Value)

  const MaxRequestAttempts: nat := 3

  /** What one answer means: retry (transport failure, non-2xx) or stop with a result. */
  datatype Step = Retry | Done(result: Result<Value, Error>)

  function Classify(o: HttpOutcome, codecs: Codecs): (s: Step)
    ensures o.NetworkError? ==> s == Retry
    ensures o.Response? && !(200 <= o.status < 300) ==> s == Retry
    ensures o.Response? && 200 <= o.status < 300 ==> s.Done?
  {
    match o
    case NetworkError => Retry
    case Response(status, text) =>
      if 200 <= status < 300 then
        var v := codecs.parseJson(text).GetOr(EmptyObject);
        if AsStr(Get(v, "code")).GetOr("1") == "0" then Done(Ok(v))
        else Done(Err(BusinessError(Get(v, "code"), Get(v, "msg"))))
      else Retry
  }

  /** A 2xx answer succeeds exactly when its JSON carries the text code "0". */
  lemma ClassifySuccessIff(o: HttpOutcome, codecs: Codecs)
    requires o.Response? && 200 <= o.status < 300
    ensures Classify(o, codecs).result.Ok? <==>
      Get(codecs.parseJson(o.text).GetOr(EmptyObject), "code") == Str("0")
  {
  }

  datatype RequestRun = RequestRun(result: Result<Value, Error>, attempts: nat, sleptMs: nat)

  /** Attempts `attempt`..3 of one request: what they return, how many were made, how long was slept. */
  function RunFrom(req: HttpRequest, path: string, respond: (HttpRequest, nat) -> HttpOutcome,
                   codecs: Codecs, attempt: nat): RequestRun
    requires 1 <= attempt <= MaxRequestAttempts + 1
    decreases MaxRequestAttempts + 1 - attempt
  {
    if attempt > MaxRequestAttempts then RequestRun(Err(RequestFailed(path)), MaxRequestAttempts, 0)
    else
      match Classify(respond(req, attempt), codecs)
      case Done(r) => RequestRun(r, attempt, 0)
      case Retry =>
        var rest := RunFrom(req, path, respond, codecs, attempt + 1);
        rest.(sleptMs := 500 * attempt + rest.sleptMs)
  }

  /** The back-off slept after the retried attempts from..to-1: 500·j ms after attempt j. */
  function Backoff(from: nat, to: nat): (ms: nat)
    ensures from >= to ==> ms == 0
    ensures from < to ==> ms >= 500 * from
    decreases if from >= to then 0 else to - from
  {
    if from >= to then 0 else 500 * from + Backoff(from + 1, to)
  }

  /**
   * Attempts before the last one made were all retries; the run either
   * settles on the last attempt's outcome or fails after retrying attempt 3;
   * and it slept 500·j ms after each retried attempt j.
   */
  lemma {:induction false} RunFromBounds(req: HttpRequest, path: string, respond: (HttpRequest, nat) -> HttpOutcome,
                                         codecs: Codecs, attempt: nat)
    requires 1 <= attempt <= MaxRequestAttempts + 1
    ensures var run := RunFrom(req, path, respond, codecs, attempt);
      (attempt <= MaxRequestAttempts ==> attempt <= run.attempts) && run.attempts <= MaxRequestAttempts
    ensures var run := RunFrom(req, path, respond, codecs, attempt);
      run.result.Ok? ==> Classify(respond(req, run.attempts), codecs) == Done(run.result)
    ensures var run := RunFrom(req, path, respond, codecs, attempt);
      run.result == Err(RequestFailed(path)) ==>
        forall j :: attempt <= j <= MaxRequestAttempts ==> Classify(respond(req, j), codecs) == Retry
    ensures var run := RunFrom(req, path, respond, codecs, attempt);
      forall j :: attempt <= j < run.attempts ==> Classify(respond(req, j), codecs) == Retry
    ensures var run := RunFrom(req, path, respond, codecs, attempt);
      run.result != Err(RequestFailed(path)) ==> Classify(respond(req, run.attempts), codecs) == Done(run.result)
    ensures var run := RunFrom(req, path, respond, codecs, attempt);
      run.sleptMs == Backoff(attempt, if run.result == Err(RequestFailed(path)) then MaxRequestAttempts + 1 else run.attempts)
    decreases MaxRequestAttempts + 1 - attempt
  {
    if attempt <= MaxRequestAttempts && Classify(respond(req, attempt), codecs) == Retry {
      RunFromBounds(req, path, respond, codecs, attempt + 1);
    }
  }

  /**
   * The first attempt that settles ends the run, on any attempt: with retries
   * before attempt j and a 2xx answer at j, the run returns that answer's
   * result after j attempts and the back-off of the retries.
   */
  lemma {:induction false} RunFromSettlesAt(req: HttpRequest, path: string, respond: (HttpRequest, nat) -> HttpOutcome,
                                            codecs: Codecs, attempt: nat, j: nat)
    requires 1 <= attempt <= j <= MaxRequestAttempts
    requires forall k :: attempt <= k < j ==> Classify(respond(req, k), codecs) == Retry
    requires Classify(respond(req, j), codecs).Done?
    ensures RunFrom(req, path, respond, codecs, attempt) ==
      RequestRun(Classify(respond(req, j), codecs).result, j, Backoff(attempt, j))
    decreases j - attempt
  {
    if attempt < j {
      assert Classify(respond(req, attempt), codecs) == Retry;
      RunFromSettlesAt(req, path, respond, codecs, attempt + 1, j);
    }
  }

  /** A business error on the first attempt ends the request at once: no retry and no sleep. */
  lemma BusinessErrorIsTerminal(req: HttpRequest, path: string, respond: (HttpRequest, nat) -> HttpOutcome, codecs: Codecs)
    requires Classify(respond(req, 1), codecs).Done? && Classify(respond(req, 1), codecs).result.Err?
    ensures RunFrom(req, path, respond, codecs, 1) == RequestRun(Classify(respond(req, 1), codecs).result, 1, 0)
  {
  }

  /** Three transport failures: the request fails after sleeping 500 + 1000 + 1500 ms. */
  lemma TransportFailuresExhaust(req: HttpRequest, path: string, respond: (HttpRequest, nat) -> HttpOutcome, codecs: Codecs)
    requires forall j :: 1 <= j <= 3 ==> Classify(respond(req, j), codecs) == Retry
    ensures RunFrom(req, path, respond, codecs, 1) == RequestRun(Err(RequestFailed(path)), 3, 3000)
  {
    assert Classify(respond(req, 1), codecs) == Retry;
    assert Classify(respond(req, 2), codecs) == Retry;
    assert Classify(respond(req, 3), codecs) == Retry;
  }

  // ---------------------------------------------------------------------------
  // Response decoding
  // ---------------------------------------------------------------------------

  /** `resp["data"].as_array()`, with a non-array read as no items. */
  function DataItems(resp: Value): seq<Value> {
    AsArray(Get(resp, "data")).GetOr([])
  }

  function MetaOf(item: Value, codecs: Codecs): InstrumentMeta {
    InstrumentMeta(TextF64(item, "ctVal", codecs), TextF64(item, "tickSz", codecs),
                   TextF64(item, "minSz", codecs), TextF64(item, "lotSz", codecs))
  }

  /** The cache built from the instrument list: one insert per item with a non-empty `instId`, later items overwriting. */
  function CacheOf(items: seq<Value>, codecs: Codecs): map<string, InstrumentMeta>
    decreases |items|
  {
    if items == [] then map[]
    else
      var cache := CacheOf(items[..|items| - 1], codecs);
      var item := items[|items| - 1];
      var id := TextOr(item, "instId", "");
      if id == "" then cache else cache[id := MetaOf(item, codecs)]
  }

  /** The symbols in the cache are exactly the non-empty instrument ids of the list. */
  lemma {:induction false} CacheOfKeys(items: seq<Value>, codecs: Codecs, symbol: string)
    ensures symbol in CacheOf(items, codecs) <==>
      symbol != "" && exists i :: 0 <= i < |items| && TextOr(items[i], "instId", "") == symbol
    decreases |items|
  {
    if items != [] {
      var init := items[..|items| - 1];
      CacheOfKeys(init, codecs, symbol);
      if exists i :: 0 <= i < |init| && TextOr(init[i], "instId", "") == symbol {
        var i :| 0 <= i < |init| && TextOr(init[i], "instId", "") == symbol;
        assert items[i] == init[i];
      }
      if exists i :: 0 <= i < |items| && TextOr(items[i], "instId", "") == symbol {
        var i :| 0 <= i < |items| && TextOr(items[i], "instId", "") == symbol;
        if i < |init| { assert init[i] == items[i]; }
      }
    }
  }

  /** The entry for a symbol is the metadata of the last item carrying that id. */
  lemma {:induction false} CacheOfLastWins(items: seq<Value>, codecs: Codecs, i: nat)
    requires i < |items| && TextOr(items[i], "instId", "") != ""
    requires forall j :: i < j < |items| ==> TextOr(items[j], "instId", "") != TextOr(items[i], "instId", "")
    ensures var id := TextOr(items[i], "instId", "");
      id in CacheOf(items, codecs) && CacheOf(items, codecs)[id] == MetaOf(items[i], codecs)
    decreases |items|
  {
    var init := items[..|items| - 1];
    if i < |items| - 1 {
      assert init[i] == items[i];
      forall j | i < j < |init| ensures TextOr(init[j], "instId", "") != TextOr(init[i], "instId", "") {
        assert init[j] == items[j];
      }
      CacheOfLastWins(init, codecs, i);
    }
  }

  function PositionOf(item: Value, codecs: Codecs): (p: PositionSummary)
    ensures AsStr(Get(item, "posSide")).None? ==> p.side == "net"
    ensures AsStr(Get(item, "lever")).None? ==> p.leverage == 1
    ensures AsStr(Get(item, "instId")).None? ==> p.symbol == ""
  {
    var lever := match AsStr(Get(item, "lever"))
                 case None => 1
                 case Some(s) => codecs.parseU32(s).GetOr(1);
    PositionSummary(
      TextOr(item, "instId", ""), TextF64(item, "pos", codecs), TextF64(item, "upl", codecs),
      TextOr(item, "posSide", "net"), lever,
      TextF64(item, "notionalUsd", codecs), TextF64(item, "mgn", codecs))
  }

  /** The open positions of a position list: each item in order, those of size 0 dropped. */
  function PositionsOf(items: seq<Value>, codecs: Codecs): (ps: seq<PositionSummary>)
    decreases |items|
  {
    if items == [] then []
    else
      var init := PositionsOf(items[..|items| - 1], codecs);
      var p := PositionOf(items[|items| - 1], codecs);
      if p.size == 0.0 then init else init + [p]
  }

  /** No listed position has size 0, and every item of non-zero size is listed. */
  lemma {:induction false} PositionsOfFilter(items: seq<Value>, codecs: Codecs)
    ensures |PositionsOf(items, codecs)| <= |items|
    ensures forall k :: 0 <= k < |PositionsOf(items, codecs)| ==> PositionsOf(items, codecs)[k].size != 0.0
    ensures forall k :: 0 <= k < |PositionsOf(items, codecs)| ==>
      exists i :: 0 <= i < |items| && PositionsOf(items, codecs)[k] == PositionOf(items[i], codecs)
    ensures forall i :: 0 <= i < |items| && PositionOf(items[i], codecs).size != 0.0 ==>
      PositionOf(items[i], codecs) in PositionsOf(items, codecs)
    decreases |items|
  {
    if items != [] {
      var init := items[..|items| - 1];
      PositionsOfFilter(init, codecs);
      var ps := PositionsOf(items, codecs);
      var pinit := PositionsOf(init, codecs);
      forall k | 0 <= k < |ps| ensures exists i :: 0 <= i < |items| && ps[k] == PositionOf(items[i], codecs) {
        if k < |pinit| {
          var i :| 0 <= i < |init| && pinit[k] == PositionOf(init[i], codecs);
          assert items[i] == init[i];
        } else {
          assert ps[k] == PositionOf(items[|items| - 1], codecs);
        }
      }
      forall i | 0 <= i < |items| && PositionOf(items[i], codecs).size != 0.0
        ensures PositionOf(items[i], codecs) in ps
      {
        if i < |init| { assert init[i] == items[i]; }
      }
    }
  }

  /** The indices of the items of non-zero size, in increasing order. */
  function KeptIndices(items: seq<Value>, codecs: Codecs): seq<nat>
    decreases |items|
  {
    if items == [] then []
    else
      var init := KeptIndices(items[..|items| - 1], codecs);
      if PositionOf(items[|items| - 1], codecs).size == 0.0 then init else init + [|items| - 1]
  }

  /** Position k of the list comes from item KeptIndices[k]. */
  lemma {:induction false} KeptIndicesSelect(items: seq<Value>, codecs: Codecs)
    ensures var ps, f := PositionsOf(items, codecs), KeptIndices(items, codecs);
      |f| == |ps| && forall k :: 0 <= k < |f| ==> f[k] < |items| && ps[k] == PositionOf(items[f[k]], codecs)
    decreases |items|
  {
    if items != [] {
      var init := items[..|items| - 1];
      KeptIndicesSelect(init, codecs);
      var finit := KeptIndices(init, codecs);
      forall k | 0 <= k < |finit| ensures items[finit[k]] == init[finit[k]] { }
    }
  }

  /** The kept indices strictly increase and are exactly the items of non-zero size. */
  lemma {:induction false} KeptIndicesIncreasing(items: seq<Value>, codecs: Codecs)
    ensures var f := KeptIndices(items, codecs);
      (forall k :: 0 <= k < |f| ==> f[k] < |items|) &&
      (forall k, l :: 0 <= k < l < |f| ==> f[k] < f[l]) &&
      (forall i :: 0 <= i < |items| ==> (i in f <==> PositionOf(items[i], codecs).size != 0.0))
    decreases |items|
  {
    if items != [] {
      var init := items[..|items| - 1];
      KeptIndicesIncreasing(init, codecs);
      forall i | 0 <= i < |init| ensures items[i] == init[i] { }
    }
  }

  /**
   * The listed positions are the items of non-zero size, each exactly once
   * and in response order: position k comes from item KeptIndices[k], the
   * indices strictly increase, and every item of non-zero size has one.
   */
  lemma PositionsOfOrder(items: seq<Value>, codecs: Codecs)
    ensures var ps, f := PositionsOf(items, codecs), KeptIndices(items, codecs);
      |f| == |ps| &&
      (forall k :: 0 <= k < |f| ==> f[k] < |items| && ps[k] == PositionOf(items[f[k]], codecs)) &&
      (forall k, l :: 0 <= k < l < |f| ==> f[k] < f[l]) &&
      (forall i :: 0 <= i < |items| ==> (i in f <==> PositionOf(items[i], codecs).size != 0.0))
  {
    KeptIndicesSelect(items, codecs);
    KeptIndicesIncreasing(items, codecs);
  }

  function PnlOf(item: Value, codecs: Codecs): PnlRecord {
    var ts := match AsStr(Get(item, "ts"))
              case None => 0
              case Some(s) => codecs.parseI64(s).GetOr(0);
    PnlRecord(TextOr(item, "instId", ""), TextF64(item, "pnl", codecs), TextF64(item, "fee", codecs),
              ts, TextOr(item, "type", ""), TextOr(item, "ordId", ""))
  }

  /** `parse::<f64>()?` on a field read with `unwrap_or("0")`: missing reads as 0, unparseable is an error. */
  function RequiredF64(v: Value, key: string, codecs: Codecs): (r: Result<real, Error>)
    ensures AsStr(Get(v, key)).None? ==> r == Ok(0.0)
    ensures AsStr(Get(v, key)).Some? && codecs.parseF64(AsStr(Get(v, key)).value).None? ==> r == Err(BadNumber(key))
  {
    match AsStr(Get(v, key))
    case None => Ok(0.0)
    case Some(s) =>
      match codecs.parseF64(s)
      case None => Err(BadNumber(key))
      case Some(x) => Ok(x)
  }

  function BalanceOf(resp: Value, codecs: Codecs): Result<BalanceSummary, Error> {
    var details := At(Get(At(Get(resp, "data"), 0), "details"), 0);
    var eq :- RequiredF64(details, "eq", codecs);
    var avail :- RequiredF64(details, "availEq", codecs);
    Ok(BalanceSummary(eq, avail))
  }

  // ---------------------------------------------------------------------------
  // Order bodies
  // ---------------------------------------------------------------------------

  /** The trigger prices of a side: take-profit above and stop-loss below the price for a long, inverted otherwise. */
  function SidePrices(posSide: string, price: real, tpPct: real, slPct: real): (real, real) {
    if posSide == "long" then (price * (1.0 + tpPct), price * (1.0 - slPct))
    else (price * (1.0 - tpPct), price * (1.0 + slPct))
  }

  /**
   * The bracket trigger prices for an order: attached exactly when both
   * percentages are positive and both of the side's prices are positive.
   */
  function BracketPrices(posSide: string, price: real, tpPct: real, slPct: real): (r: Option<(real, real)>)
    ensures r.Some? <==>
      tpPct > 0.0 && slPct > 0.0 &&
      SidePrices(posSide, price, tpPct, slPct).0 > 0.0 && SidePrices(posSide, price, tpPct, slPct).1 > 0.0
    ensures r.Some? ==> r.value == SidePrices(posSide, price, tpPct, slPct)
    ensures r.Some? && posSide == "long" ==> r.value.1 < price < r.value.0
    ensures r.Some? && posSide != "long" ==> r.value.0 < price < r.value.1
  {
    if tpPct > 0.0 && slPct > 0.0 then
      var prices := SidePrices(posSide, price, tpPct, slPct);
      if prices.0 > 0.0 && prices.1 > 0.0 then Some(prices) else None
    else None
  }

  /** A positive price with both percentages strictly between 0 and 1 always gets its bracket. */
  lemma BracketAttachedInRange(posSide: string, price: real, tpPct: real, slPct: real)
    requires price > 0.0 && 0.0 < tpPct < 1.0 && 0.0 < slPct < 1.0
    ensures BracketPrices(posSide, price, tpPct, slPct).Some?
  {
    PositiveProduct(price, 1.0 + tpPct);
    PositiveProduct(price, 1.0 - slPct);
    PositiveProduct(price, 1.0 - tpPct);
    PositiveProduct(price, 1.0 + slPct);
  }

  /** Percentages above 1 still attach a bracket on a long while both prices stay positive. */
  lemma BracketBeyondUnitPercent()
    ensures BracketPrices("long", 100.0, 1.5, 0.5) == Some((250.0, 50.0))
    ensures BracketPrices("short", 100.0, 1.5, 0.5) == None
  {
  }

  /** With a non-positive percentage no bracket is attached, whatever the price. */
  lemma NoBracketWithoutBoth(posSide: string, price: real, tpPct: real, slPct: real)
    requires tpPct <= 0.0 || slPct <= 0.0
    ensures BracketPrices(posSide, price, tpPct, slPct) == None
  {
  }

  function LeverageBody(symbol: string, lev: nat): Value {
    Obj(map["instId" := Str(symbol), "lever" := Str(NatToString(lev)), "mgnMode" := Str("cross")])
  }

  function AlgoOrder(tpText: string, slText: string): Value {
    Obj(map["tpTriggerPx" := Str(tpText), "tpOrdPx" := Str("-1"),
             "slTriggerPx" := Str(slText), "slOrdPx" := Str("-1")])
  }

  const SetLeveragePath: string := "/api/v5/account/set-leverage"
  const OrderPath: string := "/api/v5/trade/order"
  const InstrumentsPath: string := "/api/v5/public/instruments?instType=SWAP"
  const BalancePath: string := "/api/v5/account/balance?ccy=USDT"
  const PositionsPath: string := "/api/v5/account/positions?instType=SWAP"
  const BillsPath: string := "/api/v5/account/bills?instType=SWAP&type=2"

  // ---------------------------------------------------------------------------
  // The executor
  // ---------------------------------------------------------------------------

  class TradeExecutor {
    const baseUrl: string
    const apiKey: string
    const secretKey: string
    const passphrase: string
    const isSimulated: bool
    const isDryRun: bool
    const codecs: Codecs
    var instruments: map<string, InstrumentMeta>

    /** Configuration from the environment, with the source's defaults; the cache starts empty. */
    constructor (env: string -> Option<string>, codecs: Codecs)
      ensures baseUrl == env("OKX_BASE_URL").GetOr("https://www.okx.com")
      ensures apiKey == env("OKX_API_KEY").GetOr("") && secretKey == env("OKX_SECRET_KEY").GetOr("")
      ensures passphrase == env("OKX_PASSPHRASE").GetOr("")
      ensures isSimulated == (env("OKX_SIMULATED").GetOr("0") == "1")
      ensures isDryRun == (env("DRY_RUN").GetOr("0") == "1")
      ensures this.codecs == codecs && instruments == map[]
    {
      baseUrl := env("OKX_BASE_URL").GetOr("https://www.okx.com");
      apiKey := env("OKX_API_KEY").GetOr("");
      secretKey := env("OKX_SECRET_KEY").GetOr("");
      passphrase := env("OKX_PASSPHRASE").GetOr("");
      isSimulated := env("OKX_SIMULATED").GetOr("0") == "1";
      isDryRun := env("DRY_RUN").GetOr("0") == "1";
      this.codecs := codecs;
      instruments := map[];
    }

    /** The message `sign_request` signs: timestamp ++ method ++ path ++ body. */
    function SignedMessage(m: HttpMethod, path: string, bodyText: string, timestamp: string): string {
      timestamp + MethodName(m) + path + bodyText
    }

    /** The request every attempt of one call sends; GET carries no body and signs the empty string. */
    function SignedRequest(call: ApiCall, ex: Exchange): (req: HttpRequest)
      ensures req.verb == call.verb && req.timestamp == ex.timestamp(call.verb, call.path)
      ensures call.verb == HttpGet ==> req.body == None
      ensures call.verb == HttpPost ==> req.body == Some(call.body)
      ensures req.sign == ex.hmacBase64(secretKey,
        req.timestamp + MethodName(call.verb) + call.path + (if call.verb == HttpGet then "" else codecs.serialize(call.body)))
      ensures req.url == baseUrl + call.path && req.key == apiKey && req.passphrase == passphrase
      ensures req.simulated == isSimulated
    {
      var ts := ex.timestamp(call.verb, call.path);
      var bodyText := if call.verb == HttpGet then "" else codecs.serialize(call.body);
      HttpRequest(call.verb, baseUrl + call.path, apiKey,
                  ex.hmacBase64(secretKey, SignedMessage(call.verb, call.path, bodyText, ts)),
                  ts, passphrase, isSimulated, if call.verb == HttpGet then None else Some(call.body))
    }

    /** A GET signs timestamp ++ "GET" ++ path with nothing after it, whatever body the call carries. */
    lemma GetSignsEmptyBody(call: ApiCall, ex: Exchange)
      requires call.verb == HttpGet
      ensures SignedRequest(call, ex).sign == ex.hmacBase64(secretKey, ex.timestamp(HttpGet, call.path) + "GET" + call.path)
      ensures SignedRequest(call, ex) == SignedRequest(call.(body := EmptyObject), ex)
    {
      assert ex.timestamp(HttpGet, call.path) + "GET" + call.path + ""
          == ex.timestamp(HttpGet, call.path) + "GET" + call.path;
    }

    /** The outcome of a whole call. */
    function CallOutcome(call: ApiCall, ex: Exchange): RequestRun {
      RunFrom(SignedRequest(call, ex), call.path, ex.respond, codecs, 1)
    }

    /**
     * `send_signed_request`: the request is signed once, then sent up to
     * three times; a 2xx answer ends the loop (Ok for code "0", Err
     * otherwise), a transport failure or non-2xx sleeps 500·attempt ms and
     * retries.
     */
    method SendSignedRequest(call: ApiCall, ex: Exchange)
      returns (r: Result<Value, Error>, sent: seq<HttpRequest>, sleptMs: nat)
      ensures r == CallOutcome(call, ex).result && sleptMs == CallOutcome(call, ex).sleptMs
      ensures |sent| == CallOutcome(call, ex).attempts
      ensures 1 <= |sent| <= MaxRequestAttempts
      ensures forall i :: 0 <= i < |sent| ==> sent[i] == SignedRequest(call, ex)
    {
      var req := SignedRequest(call, ex);
      ghost var whole := RunFrom(req, call.path, ex.respond, codecs, 1);
      RunFromBounds(req, call.path, ex.respond, codecs, 1);
      sent, sleptMs := [], 0;
      var attempt := 1;
      while attempt <= MaxRequestAttempts
        invariant 1 <= attempt <= MaxRequestAttempts + 1
        invariant |sent| == attempt - 1
        invariant forall i :: 0 <= i < |sent| ==> sent[i] == req
        invariant whole.result == RunFrom(req, call.path, ex.respond, codecs, attempt).result
        invariant whole.attempts == RunFrom(req, call.path, ex.respond, codecs, attempt).attempts
        invariant whole.sleptMs == sleptMs + RunFrom(req, call.path, ex.respond, codecs, attempt).sleptMs
      {
        var outcome := ex.respond(req, attempt);
        sent := sent + [req];
        var step := Classify(outcome, codecs);
        if step.Done? {
          r := step.result;
          return;
        }
        sleptMs := sleptMs + 500 * attempt;
        attempt := attempt + 1;
      }
      r := Err(RequestFailed(call.path));
    }

    /**
     * `init_instruments_cache`: a failed fetch returns its error before the
     * cache is touched; otherwise the cache is replaced by the list's entries.
     */
    method InitInstrumentsCache(ex: Exchange) returns (r: Result<(), Error>)
      modifies this
      ensures var call := ApiCall(HttpGet, InstrumentsPath, EmptyObject);
        CallOutcome(call, ex).result.Err? ==> r == Err(CallOutcome(call, ex).result.error) && instruments == old(instruments)
      ensures var call := ApiCall(HttpGet, InstrumentsPath, EmptyObject);
        CallOutcome(call, ex).result.Ok? ==>
          r == Ok(()) && instruments == CacheOf(DataItems(CallOutcome(call, ex).result.value), codecs)
    {
      var resp, _, _ := SendSignedRequest(ApiCall(HttpGet, InstrumentsPath, EmptyObject), ex);
      if resp.Err? {
        return Err(resp.error);
      }
      var items := DataItems(resp.value);
      instruments := map[];
      var i := 0;
      while i < |items|
        invariant 0 <= i <= |items|
        invariant instruments == CacheOf(items[..i], codecs)
      {
        assert items[..i + 1][..i] == items[..i];
        var id := TextOr(items[i], "instId", "");
        if id != "" {
          instruments := instruments[id := MetaOf(items[i], codecs)];
        }
        i := i + 1;
      }
      assert items[..|items|] == items;
      r := Ok(());
    }

    /** The balance read from the exchange in this state: the call's error, or the decoded summary. */
    function AccountSummaryOf(ex: Exchange): Result<BalanceSummary, Error> {
      var run := CallOutcome(ApiCall(HttpGet, BalancePath, EmptyObject), ex);
      if run.result.Err? then Err(run.result.error) else BalanceOf(run.result.value, codecs)
    }

    /** `fetch_account_summary`. */
    method FetchAccountSummary(ex: Exchange) returns (r: Result<BalanceSummary, Error>)
      ensures r == AccountSummaryOf(ex)
    {
      var resp, _, _ := SendSignedRequest(ApiCall(HttpGet, BalancePath, EmptyObject), ex);
      if resp.Err? {
        return Err(resp.error);
      }
      r := BalanceOf(resp.value, codecs);
    }

    /** `fetch_positions`: the positions of non-zero size, in the exchange's order. */
    method FetchPositions(ex: Exchange) returns (r: Result<seq<PositionSummary>, Error>)
      ensures var run := CallOutcome(ApiCall(HttpGet, PositionsPath, EmptyObject), ex);
        r == if run.result.Err? then Err(run.result.error) else Ok(PositionsOf(DataItems(run.result.value), codecs))
    {
      var resp, _, _ := SendSignedRequest(ApiCall(HttpGet, PositionsPath, EmptyObject), ex);
      if resp.Err? {
        return Err(resp.error);
      }
      var items := DataItems(resp.value);
      var list: seq<PositionSummary> := [];
      for i := 0 to |items|
        invariant list == PositionsOf(items[..i], codecs)
      {
        assert items[..i + 1][..i] == items[..i];
        var p := PositionOf(items[i], codecs);
        if p.size == 0.0 { continue; }
        list := list + [p];
      }
      assert items[..|items|] == items;
      r := Ok(list);
    }

    /** `fetch_recent_pnl`: one record per ledger item, in order. */
    method FetchRecentPnl(ex: Exchange) returns (r: Result<seq<PnlRecord>, Error>)
      ensures var run := CallOutcome(ApiCall(HttpGet, BillsPath, EmptyObject), ex);
        run.result.Err? ==> r == Err(run.result.error)
      ensures var run := CallOutcome(ApiCall(HttpGet, BillsPath, EmptyObject), ex);
        run.result.Ok? ==> r.Ok? && |r.value| == |DataItems(run.result.value)|
      ensures var run := CallOutcome(ApiCall(HttpGet, BillsPath, EmptyObject), ex);
        run.result.Ok? ==> forall i :: 0 <= i < |r.value| ==> r.value[i] == PnlOf(DataItems(run.result.value)[i], codecs)
    {
      var resp, _, _ := SendSignedRequest(ApiCall(HttpGet, BillsPath, EmptyObject), ex);
      if resp.Err? {
        return Err(resp.error);
      }
      var items := DataItems(resp.value);
      var list: seq<PnlRecord> := [];
      for i := 0 to |items|
        invariant |list| == i
        invariant forall k :: 0 <= k < i ==> list[k] == PnlOf(items[k], codecs)
      {
        list := list + [PnlOf(items[i], codecs)];
      }
      r := Ok(list);
    }

    /** The body of the market order `execute_order` submits. */
    function OrderBody(symbol: string, side: string, posSide: string, szText: string,
                       bracket: Option<(real, real)>): Value
      reads this
    {
      var base := map["instId" := Str(symbol), "tdMode" := Str("cross"), "side" := Str(side),
                       "posSide" := Str(posSide), "ordType" := Str("market"), "sz" := Str(szText)];
      match bracket
      case None => Obj(base)
      case Some((tp, sl)) =>
        var tpText := RenderNumText(FormatPrice(instruments, symbol, tp), codecs.display);
        var slText := RenderNumText(FormatPrice(instruments, symbol, sl), codecs.display);
        Obj(base["attachAlgoOrds" := Arr([AlgoOrder(tpText, slText)])])
    }

    /** The set-leverage call made first when a leverage is given. */
    function LeverageCalls(symbol: string, leverage: Option<nat>): seq<ApiCall> {
      if leverage.Some? then [ApiCall(HttpPost, SetLeveragePath, LeverageBody(symbol, leverage.value))] else []
    }

    /** The market order call, with the size printed by `format_sz` and the bracket if any. */
    function OrderCall(symbol: string, side: string, posSide: string, size: real, price: real,
                       tpPct: real, slPct: real): ApiCall
      reads this
    {
      ApiCall(HttpPost, OrderPath,
        OrderBody(symbol, side, posSide, RenderNumText(FormatSz(instruments, symbol, size), codecs.display),
                  BracketPrices(posSide, price, tpPct, slPct)))
    }

    /** The order id of an accepted order (`"unknown"` if absent) and the full answer. */
    function OrderResultOf(res: Result<Value, Error>): Result<OrderResult, Error> {
      match res
      case Err(e) => Err(e)
      case Ok(v) => Ok(OrderResult(TextOr(At(Get(v, "data"), 0), "ordId", "unknown"), codecs.serialize(v)))
    }

    /** What `execute_order` returns: the size check, then the dry-run short-circuit, then the order call's answer. */
    function ExecuteOrderResult(symbol: string, side: string, posSide: string, size: real, price: real,
                                tpPct: real, slPct: real, ex: Exchange): Result<OrderResult, Error>
      reads this
    {
      var sz := FormatSz(instruments, symbol, size);
      if NumTextValue(sz) == 0.0 then Err(SizeTooSmall(size, sz))
      else if isDryRun then Ok(OrderResult("dry-run", "ok"))
      else OrderResultOf(CallOutcome(OrderCall(symbol, side, posSide, size, price, tpPct, slPct), ex).result)
    }

    /**
     * `execute_order`: a best-effort set-leverage call, then the size check,
     * the bracket, the dry-run short-circuit and the order call.  `calls`
     * lists the calls made, in order.
     */
    method ExecuteOrder(symbol: string, side: string, posSide: string, size: real, price: real,
                        tpPct: real, slPct: real, leverage: Option<nat>, ex: Exchange)
      returns (r: Result<OrderResult, Error>, calls: seq<ApiCall>)
      ensures r == ExecuteOrderResult(symbol, side, posSide, size, price, tpPct, slPct, ex)
      ensures NumTextValue(FormatSz(instruments, symbol, size)) == 0.0 ==>
        r == Err(SizeTooSmall(size, FormatSz(instruments, symbol, size))) && calls == LeverageCalls(symbol, leverage)
      ensures NumTextValue(FormatSz(instruments, symbol, size)) != 0.0 && isDryRun ==>
        r == Ok(OrderResult("dry-run", "ok")) && calls == LeverageCalls(symbol, leverage)
      ensures NumTextValue(FormatSz(instruments, symbol, size)) != 0.0 && !isDryRun ==>
        calls == LeverageCalls(symbol, leverage) + [OrderCall(symbol, side, posSide, size, price, tpPct, slPct)]
      ensures NumTextValue(FormatSz(instruments, symbol, size)) != 0.0 && !isDryRun ==>
        r == OrderResultOf(CallOutcome(OrderCall(symbol, side, posSide, size, price, tpPct, slPct), ex).result)
    {
      calls := [];
      if leverage.Some? {
        var levCall := ApiCall(HttpPost, SetLeveragePath, LeverageBody(symbol, leverage.value));
        var _, _, _ := SendSignedRequest(levCall, ex);
        calls := calls + [levCall];
      }
      var sz := FormatSz(instruments, symbol, size);
      if NumTextValue(sz) == 0.0 {
        return Err(SizeTooSmall(size, sz)), calls;
      }
      var bracket := BracketPrices(posSide, price, tpPct, slPct);
      var body := OrderBody(symbol, side, posSide, RenderNumText(sz, codecs.display), bracket);
      if isDryRun {
        return Ok(OrderResult("dry-run", "ok")), calls;
      }
      var order := ApiCall(HttpPost, OrderPath, body);
      var res, _, _ := SendSignedRequest(order, ex);
      calls := calls + [order];
      if res.Err? {
        return Err(res.error), calls;
      }
      var ordId := TextOr(At(Get(res.value, "data"), 0), "ordId", "unknown");
      r := Ok(OrderResult(ordId, codecs.serialize(res.value)));
    }
  }
}
