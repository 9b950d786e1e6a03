/**
 * The ticker feed of `modules/perception/ws_client.rs`: the subscribe
 * message, the price cache that every ticker message updates in place, and
 * the reconnect loop, run here over a finite list of connection sessions.
 */
module PriceFeed {
  import opened Base
  import opened Json

  /** A cached price with the instant it arrived (the clock reading of the handling step). */
  datatype CachedPrice = CachedPrice(price: real, at: int)

  /** One subscription argument: the tickers channel of one instrument. */
  function SubscribeArg(symbol: string): Value {
    Obj(map["channel" := Str("tickers"), "instId" := Str(symbol)])
  }

  /** The subscribe request: op "subscribe" with one argument per symbol, in symbol order. */
  function SubscribeMessage(symbols: seq<string>): (r: Value)
    ensures Get(r, "op") == Str("subscribe")
    ensures AsArray(Get(r, "args")).Some?
    ensures var args := AsArray(Get(r, "args")).value;
      |args| == |symbols|
      && forall i :: 0 <= i < |symbols| ==>
           Get(args[i], "channel") == Str("tickers") && Get(args[i], "instId") == Str(symbols[i])
  {
    Obj(map["op" := Str("subscribe"),
            "args" := Arr(seq(|symbols|, (i: int) requires 0 <= i < |symbols| => SubscribeArg(symbols[i])))])
  }

  /** The (instrument, price) an item carries: both fields must be text and `last` must parse. */
  function TickOf(item: Value, parseF64: string -> Option<real>): (r: Option<(string, real)>)
    ensures r.Some? <==>
      AsStr(Get(item, "instId")).Some? && AsStr(Get(item, "last")).Some?
      && parseF64(AsStr(Get(item, "last")).value).Some?
    ensures r.Some? ==>
      r.value.0 == AsStr(Get(item, "instId")).value
      && r.value.1 == parseF64(AsStr(Get(item, "last")).value).value
  {
    match (AsStr(Get(item, "instId")), AsStr(Get(item, "last")))
    case (Some(instId), Some(last)) =>
      (match parseF64(last)
       case Some(price) => Some((instId, price))
       case None => None)
    case _ => None
  }

  /** The cache after the items of one message, applied in order. */
  function ApplyItems(cache: map<string, CachedPrice>, items: seq<Value>, now: int,
                      parseF64: string -> Option<real>): map<string, CachedPrice>
  {
    if |items| == 0 then cache
    else
      var before := ApplyItems(cache, items[..|items| - 1], now, parseF64);
      match TickOf(items[|items| - 1], parseF64)
      case Some((instId, price)) => before[instId := CachedPrice(price, now)]
      case None => before
  }

  /** The price of the last item of a message that carries a tick for `key`. */
  function LastTick(items: seq<Value>, key: string, parseF64: string -> Option<real>): (r: Option<real>)
    ensures r.Some? ==> exists i :: 0 <= i < |items| && TickOf(items[i], parseF64) == Some((key, r.value))
    ensures r.None? ==> forall i :: 0 <= i < |items| ==>
      TickOf(items[i], parseF64).None? || TickOf(items[i], parseF64).value.0 != key
  {
    if |items| == 0 then None
    else
      var t := TickOf(items[|items| - 1], parseF64);
      if t.Some? && t.value.0 == key then Some(t.value.1)
      else
        var r := LastTick(items[..|items| - 1], key, parseF64);
        assert forall i :: 0 <= i < |items| - 1 ==> items[..|items| - 1][i] == items[i];
        r
  }

  /**
   * Per key, a message sets the price of the last item that carries a tick
   * for it, at the handling instant; a key no item mentions keeps its entry,
   * or its absence.
   */
  lemma {:induction false} ApplyItemsAt(cache: map<string, CachedPrice>, items: seq<Value>, now: int,
                                        parseF64: string -> Option<real>, key: string)
    ensures var r := ApplyItems(cache, items, now, parseF64);
      var last := LastTick(items, key, parseF64);
      && (last.Some? ==> key in r && r[key] == CachedPrice(last.value, now))
      && (last.None? ==> (key in r <==> key in cache) && (key in cache ==> r[key] == cache[key]))
  {
    if |items| > 0 {
      ApplyItemsAt(cache, items[..|items| - 1], now, parseF64, key);
    }
  }

  /** What one text frame does to the cache: only a JSON message with a `data` array changes it. */
  function ApplyText(cache: map<string, CachedPrice>, text: string, now: int, codecs: Codecs): (r: map<string, CachedPrice>)
    ensures codecs.parseJson(text).None? ==> r == cache
    ensures codecs.parseJson(text).Some? && AsArray(Get(codecs.parseJson(text).value, "data")).None? ==> r == cache
  {
    match codecs.parseJson(text)
    case None => cache
    case Some(msg) =>
      match AsArray(Get(msg, "data"))
      case None => cache
      case Some(items) => ApplyItems(cache, items, now, codecs.parseF64)
  }

  /** A frame read from the socket; a text frame carries the instant it is handled. */
  datatype Frame = TextFrame(text: string, at: int) | PingFrame | OtherFrame | ReadError

  /** The cache after the frames of one connection, none of which is a read error. */
  function ApplyFrames(cache: map<string, CachedPrice>, frames: seq<Frame>, codecs: Codecs): map<string, CachedPrice> {
    if |frames| == 0 then cache
    else
      var before := ApplyFrames(cache, frames[..|frames| - 1], codecs);
      match frames[|frames| - 1]
      case TextFrame(text, at) => ApplyText(before, text, at, codecs)
      case _ => before
  }

  /** How many frames the read loop handles: all of them up to the first read error. */
  function FramesRead(frames: seq<Frame>): (n: nat)
    ensures n <= |frames|
    ensures forall i :: 0 <= i < n ==> !frames[i].ReadError?
    ensures n < |frames| ==> frames[n].ReadError?
  {
    if |frames| == 0 then 0
    else if frames[0].ReadError? then 0
    else 1 + FramesRead(frames[1..])
  }

  /**
   * One round of the reconnect loop: the connection fails, or it opens and
   * the subscribe send fails, or it opens, subscribes and yields frames
   * until the stream ends.
   */
  datatype Session = ConnectFailed | SubscribeFailed | Subscribed(frames: seq<Frame>)

  /** A round that ends with the 5-second pause: every round except a failed subscribe, which `continue`s. */
  predicate Pauses(s: Session) {
    !s.SubscribeFailed?
  }

  /** The cache after a list of rounds. */
  function ApplySessions(cache: map<string, CachedPrice>, sessions: seq<Session>, codecs: Codecs): map<string, CachedPrice> {
    if |sessions| == 0 then cache
    else
      var before := ApplySessions(cache, sessions[..|sessions| - 1], codecs);
      match sessions[|sessions| - 1]
      case Subscribed(frames) => ApplyFrames(before, frames[..FramesRead(frames)], codecs)
      case _ => before
  }

  /** The seconds paused over a list of rounds. */
  function PausedSeconds(sessions: seq<Session>): (r: nat)
    ensures r % ReconnectDelaySecs == 0 && r <= ReconnectDelaySecs * |sessions|
  {
    if |sessions| == 0 then 0
    else PausedSeconds(sessions[..|sessions| - 1]) + (if Pauses(sessions[|sessions| - 1]) then ReconnectDelaySecs else 0)
  }

  /** The pause before reconnecting, in seconds. */
  const ReconnectDelaySecs: nat := 5

  /** Rounds that never subscribe leave the cache as it was. */
  lemma {:induction false} UnsubscribedRoundsKeepCache(cache: map<string, CachedPrice>, sessions: seq<Session>, codecs: Codecs)
    requires forall i :: 0 <= i < |sessions| ==> !sessions[i].Subscribed?
    ensures ApplySessions(cache, sessions, codecs) == cache
  {
    if |sessions| > 0 {
      var init := sessions[..|sessions| - 1];
      assert forall i :: 0 <= i < |init| ==> init[i] == sessions[i];
      UnsubscribedRoundsKeepCache(cache, init, codecs);
    }
  }

  /** The client: the shared price cache and the library codecs. */
  class TickerClient {
    var cache: map<string, CachedPrice>
    const codecs: Codecs

    constructor(codecs: Codecs, cache: map<string, CachedPrice>)
      ensures this.codecs == codecs && this.cache == cache
    {
      this.codecs := codecs;
      this.cache := cache;
    }

    /** The `for item in data` loop: one upsert per item that carries a tick. */
    method HandleItems(items: seq<Value>, now: int)
      modifies this
      ensures cache == ApplyItems(old(cache), items, now, codecs.parseF64)
    {
      for i := 0 to |items|
        invariant cache == ApplyItems(old(cache), items[..i], now, codecs.parseF64)
      {
        assert items[..i + 1][..i] == items[..i];
        var item := items[i];
        match (AsStr(Get(item, "instId")), AsStr(Get(item, "last"))) {
          case (Some(instId), Some(last)) =>
            match codecs.parseF64(last) {
              case Some(price) =>
                cache := cache[instId := CachedPrice(price, now)];
              case None =>
            }
          case _ =>
        }
      }
      assert items[..|items|] == items;
    }

    /** A text frame: parse it and apply its `data` array, if it has one. */
    method HandleText(text: string, now: int)
      modifies this
      ensures cache == ApplyText(old(cache), text, now, codecs)
    {
      match codecs.parseJson(text) {
        case Some(msg) =>
          match AsArray(Get(msg, "data")) {
            case Some(items) => HandleItems(items, now);
            case None =>
          }
        case None =>
      }
    }

    /** The read loop: handle frames until a read error or the end of the stream. */
    method ReadLoop(frames: seq<Frame>) returns (handled: nat)
      modifies this
      ensures handled == FramesRead(frames)
      ensures cache == ApplyFrames(old(cache), frames[..handled], codecs)
    {
      handled := 0;
      while handled < |frames| && !frames[handled].ReadError?
        invariant handled <= |frames|
        invariant forall i :: 0 <= i < handled ==> !frames[i].ReadError?
        invariant cache == ApplyFrames(old(cache), frames[..handled], codecs)
        decreases |frames| - handled
      {
        assert frames[..handled + 1][..handled] == frames[..handled];
        match frames[handled] {
          case TextFrame(text, at) => HandleText(text, at);
          case _ =>
        }
        handled := handled + 1;
      }
      FramesReadExact(frames, handled);
    }

    /**
     * `run` over a finite list of rounds: nothing happens with an invalid
     * URL; otherwise every opened connection sends the subscribe message,
     * subscribed rounds update the cache, and every round but a failed
     * subscribe pauses 5 seconds.
     */
    method Run(urlValid: bool, symbols: seq<string>, sessions: seq<Session>)
      returns (sent: seq<string>, pausedSecs: nat)
      modifies this
      ensures !urlValid ==> sent == [] && pausedSecs == 0 && cache == old(cache)
      ensures urlValid ==>
        && |sent| == |sessions| - CountConnectFailed(sessions)
        && (forall i :: 0 <= i < |sent| ==> sent[i] == codecs.serialize(SubscribeMessage(symbols)))
        && pausedSecs == PausedSeconds(sessions)
        && cache == ApplySessions(old(cache), sessions, codecs)
    {
      sent := [];
      pausedSecs := 0;
      if !urlValid {
        return;
      }
      var request := codecs.serialize(SubscribeMessage(symbols));
      for i := 0 to |sessions|
        invariant |sent| == i - CountConnectFailed(sessions[..i])
        invariant forall j :: 0 <= j < |sent| ==> sent[j] == request
        invariant pausedSecs == PausedSeconds(sessions[..i])
        invariant cache == ApplySessions(old(cache), sessions[..i], codecs)
      {
        assert sessions[..i + 1][..i] == sessions[..i];
        match sessions[i] {
          case ConnectFailed =>
            pausedSecs := pausedSecs + ReconnectDelaySecs;
          case SubscribeFailed =>
            sent := sent + [request];
          case Subscribed(frames) =>
            sent := sent + [request];
            var handled := ReadLoop(frames);
            pausedSecs := pausedSecs + ReconnectDelaySecs;
        }
      }
      assert sessions[..|sessions|] == sessions;
    }
  }

  function CountConnectFailed(sessions: seq<Session>): (r: nat)
    ensures r <= |sessions|
  {
    if |sessions| == 0 then 0
    else CountConnectFailed(sessions[..|sessions| - 1]) + (if sessions[|sessions| - 1].ConnectFailed? then 1 else 0)
  }

  /** The read loop stops at the first read error, or at the end of the stream. */
  lemma {:induction false} FramesReadExact(frames: seq<Frame>, n: nat)
    requires n <= |frames|
    requires forall i :: 0 <= i < n ==> !frames[i].ReadError?
    requires n == |frames| || frames[n].ReadError?
    ensures FramesRead(frames) == n
  {
    if n > 0 {
      assert forall i :: 0 <= i < n - 1 ==> frames[1..][i] == frames[i + 1];
      FramesReadExact(frames[1..], n - 1);
    }
  }
}
