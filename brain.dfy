/**
 * Validation of the language model's trading decision (`modules/brain/llm.rs`):
 * stripping the `<think>` block, picking the JSON text out of the reply, and
 * turning the JSON fields into a bounded `AiDecision` (action mapping, percent
 * rescaling, leverage clamp, Kelly fraction and the forced HOLD).
 */
module Brain {
  import opened Base
  import opened Text
  import opened Json

  datatype TradeAction = Buy | Sell | CloseLong | CloseShort | Hold

  datatype AiDecision = AiDecision(
    action: TradeAction,
    reason: string,
    tpPct: real,
    slPct: real,
    leverage: nat,
    winRate: real,
    kellyFraction: real,
    riskRewardRatio: real,
    strategyVersion: string)

  /** The two actions that open a position. */
  predicate IsOpen(a: TradeAction) {
    a == Buy || a == Sell
  }

  /** `AiDecision::action_name`: the fixed label of each action. */
  function ActionName(a: TradeAction): (r: string)
    ensures |r| > 0
  {
    match a
    case Buy => "OPEN LONG"
    case Sell => "OPEN SHORT"
    case CloseLong => "CLOSE LONG"
    case CloseShort => "CLOSE SHORT"
    case Hold => "HOLD"
  }

  /** Distinct actions have distinct labels, so a label names its action. */
  lemma ActionNameInjective(a: TradeAction, b: TradeAction)
    ensures ActionName(a) == ActionName(b) <==> a == b
  {
    if a != b {
      match a
      case Buy => assert ActionName(a)[5] == 'L';
      case Sell => assert ActionName(a)[5] == 'S';
      case CloseLong => assert ActionName(a)[6] == 'L';
      case CloseShort => assert ActionName(a)[6] == 'S';
      case Hold => assert |ActionName(a)| == 4;
    }
  }

  // ---------------------------------------------------------------------------
  // Reasoning block and JSON extraction
  // ---------------------------------------------------------------------------

  const ThinkOpen: string := "<think>"
  const ThinkClose: string := "</think>"

  /**
   * `clean_reasoning_content`: when both tags occur, the text before the first
   * `<think>` joined to the text after the first `</think>`.
   */
  function CleanReasoningContent(raw: string): string {
    match Find(raw, ThinkOpen)
    case None => raw
    case Some(start) =>
      match Find(raw, ThinkClose)
      case None => raw
      case Some(end) =>
        if end + 8 <= |raw| then raw[..start] + raw[end + 8..] else raw
  }

  /** Without both tags the text comes back unchanged. */
  lemma CleanReasoningWithoutTags(raw: string)
    requires !Contains(raw, ThinkOpen) || !Contains(raw, ThinkClose)
    ensures CleanReasoningContent(raw) == raw
  {
  }

  /**
   * A `<think> … </think>` block in order is cut out exactly: what remains is
   * the text before `<think>` and after `</think>`, and nothing of the block.
   */
  lemma CleanReasoningRemovesBlock(raw: string, start: nat, end: nat)
    requires Find(raw, ThinkOpen) == Some(start) && Find(raw, ThinkClose) == Some(end)
    requires start <= end
    ensures CleanReasoningContent(raw) == raw[..start] + raw[end + |ThinkClose|..]
    ensures |CleanReasoningContent(raw)| == |raw| - (end + |ThinkClose| - start)
  {
  }

  /**
   * A stray `</think>` before the first `<think>` defeats the cut: the text
   * between the tags is kept twice and the `<think>` tag survives.
   */
  lemma CleanReasoningOutOfOrder(raw: string, start: nat, end: nat)
    requires Find(raw, ThinkOpen) == Some(start) && Find(raw, ThinkClose) == Some(end)
    requires end < start
    ensures start >= end + |ThinkClose|
    ensures |CleanReasoningContent(raw)| >= |raw|
    ensures Contains(CleanReasoningContent(raw), ThinkOpen)
  {
    assert OccursAt(raw, ThinkOpen, start) && OccursAt(raw, ThinkClose, end);
    assert raw[start] == raw[start..start + 7][0] == '<';
    assert forall j :: end <= j < end + 8 ==> raw[j] == raw[end..end + 8][j - end];
    assert forall j :: end < j < end + 8 ==> raw[j] != '<';
    if start < end + 8 {
      assert false;
    }
    var r := CleanReasoningContent(raw);
    var k := start + (start - (end + 8));
    assert r == raw[..start] + raw[end + 8..];
    assert r[k..k + 7] == raw[start..start + 7];
    assert OccursAt(r, ThinkOpen, k);
    ContainsIff(r, ThinkOpen);
  }

  const FenceOpen: string := "```json"
  const Fence: string := "```"
  const ExtractFailure: string := "Failed to extract JSON from response"

  /** The text inside the first ```` ```json … ``` ```` fence, if there is one. */
  function FencedText(c: string): Option<string> {
    match Find(c, FenceOpen)
    case None => None
    case Some(start) =>
      // `c[start..].find("```")` always succeeds: it sees the opening fence.
      match Find(c[start..], Fence)
      case None => None
      case Some(_) =>
        var afterStart := c[start + 7..];
        match Find(afterStart, Fence)
        case None => None
        case Some(realEnd) => Some(afterStart[..realEnd])
  }

  /** The text from the first `{` to the last `}`, when the last comes after the first. */
  function BracedText(c: string): Option<string> {
    match Find(c, "{")
    case None => None
    case Some(start) =>
      match RFindChar(c, '}')
      case None => None
      case Some(end) => if end > start then Some(c[start..end + 1]) else None
  }

  /** `extract_json`: the whole text, then the fenced text, then the braced text. */
  function ExtractJson(raw: string, parse: string -> Option<Value>): Result<Value, string> {
    var cleaned := CleanReasoningContent(raw);
    if parse(cleaned).Some? then Ok(parse(cleaned).value)
    else if FencedText(cleaned).Some? && parse(FencedText(cleaned).value).Some? then
      Ok(parse(FencedText(cleaned).value).value)
    else if BracedText(cleaned).Some? && parse(BracedText(cleaned).value).Some? then
      Ok(parse(BracedText(cleaned).value).value)
    else Err(ExtractFailure)
  }

  /** Reference definition: the candidate texts in the order they are tried. */
  function JsonCandidates(cleaned: string): (r: seq<string>)
    ensures 1 <= |r| <= 3 && r[0] == cleaned
  {
    [cleaned]
    + (if FencedText(cleaned).Some? then [FencedText(cleaned).value] else [])
    + (if BracedText(cleaned).Some? then [BracedText(cleaned).value] else [])
  }

  /** The value of the first candidate that parses. */
  function FirstParse(cands: seq<string>, parse: string -> Option<Value>): (r: Option<Value>)
    ensures r.None? <==> forall i :: 0 <= i < |cands| ==> parse(cands[i]).None?
  {
    if |cands| == 0 then None
    else if parse(cands[0]).Some? then parse(cands[0])
    else FirstParse(cands[1..], parse)
  }

  /** Extraction yields exactly the first candidate that parses, and fails iff none parses. */
  lemma ExtractJsonIsFirstParse(raw: string, parse: string -> Option<Value>)
    ensures var cands := JsonCandidates(CleanReasoningContent(raw));
      FirstParse(cands, parse).Some? ==> ExtractJson(raw, parse) == Ok(FirstParse(cands, parse).value)
    ensures var cands := JsonCandidates(CleanReasoningContent(raw));
      FirstParse(cands, parse).None? ==> ExtractJson(raw, parse) == Err(ExtractFailure)
  {
    var c := CleanReasoningContent(raw);
    var cands := JsonCandidates(c);
    var f := FencedText(c);
    var b := BracedText(c);
    if f.Some? && b.Some? {
      assert cands == [c, f.value, b.value];
      assert cands[1..][1..] == [b.value];
      assert FirstParse([b.value], parse) == parse(b.value);
      assert FirstParse(cands[1..], parse) == if parse(f.value).Some? then parse(f.value) else parse(b.value);
    } else if f.Some? {
      assert cands == [c, f.value];
      assert cands[1..] == [f.value] && cands[1..][1..] == [];
      assert FirstParse(cands[1..], parse) == parse(f.value);
    } else if b.Some? {
      assert cands == [c, b.value];
      assert cands[1..] == [b.value] && cands[1..][1..] == [];
      assert FirstParse(cands[1..], parse) == parse(b.value);
    } else {
      assert cands == [c];
      assert cands[1..] == [];
      assert FirstParse(cands, parse) == parse(c);
    }
  }

  /** The fenced text lies strictly after the opening fence and holds no fence itself. */
  lemma FencedTextShape(c: string, start: nat)
    requires Find(c, FenceOpen) == Some(start)
    ensures FencedText(c).Some? <==> Contains(c[start + 7..], Fence)
    ensures FencedText(c).Some? ==> !Contains(FencedText(c).value, Fence)
    ensures FencedText(c).Some? ==> c[start + 7..] == FencedText(c).value + c[start + 7 + |FencedText(c).value|..]
  {
    assert OccursAt(c[start..], Fence, 0) by {
      assert c[start..][0..3] == c[start..start + 7][0..3];
    }
    var after := c[start + 7..];
    match Find(after, Fence)
    case None =>
    case Some(realEnd) =>
      var t := after[..realEnd];
      forall i: nat | OccursAt(t, Fence, i)
        ensures false
      {
        assert after[i..i + 3] == t[i..i + 3];
        assert OccursAt(after, Fence, i);
      }
      assert after == t + after[realEnd..];
  }

  /** The braced text runs from the first `{` to the last `}` of the reply. */
  lemma BracedTextShape(c: string)
    ensures BracedText(c).Some? ==> exists s: nat, e: nat :: BracedSpan(c, s, e) && BracedText(c).value == c[s..e + 1]
    ensures BracedText(c).Some? ==>
      (|BracedText(c).value| >= 2 && BracedText(c).value[0] == '{' && BracedText(c).value[|BracedText(c).value| - 1] == '}')
  {
    if BracedText(c).Some? {
      var s := Find(c, "{").value;
      var e := RFindChar(c, '}').value;
      assert c[s..s + 1] == "{";
      forall j | 0 <= j < s
        ensures c[j] != '{'
      {
        assert !OccursAt(c, "{", j);
        assert c[j..j + 1] == [c[j]];
      }
      assert BracedSpan(c, s, e);
    }
  }

  /** `s` is the first `{`, `e` the last `}`, and `e` comes after `s`. */
  predicate BracedSpan(c: string, s: nat, e: nat) {
    s < e < |c| && c[s] == '{' && c[e] == '}'
    && (forall j :: 0 <= j < s ==> c[j] != '{')
    && (forall j :: e < j < |c| ==> c[j] != '}')
  }

  // ---------------------------------------------------------------------------
  // Decision fields
  // ---------------------------------------------------------------------------

  /** The `match` on the upper-cased action text. */
  function ActionOfLabel(upper: string): TradeAction {
    if upper == "BUY" || upper == "OPEN_LONG" then Buy
    else if upper == "SELL" || upper == "OPEN_SHORT" then Sell
    else if upper == "CLOSE_LONG" then CloseLong
    else if upper == "CLOSE_SHORT" then CloseShort
    else Hold
  }

  /** The action the reply asks for, `HOLD` when the field is missing or not text. */
  function RequestedAction(j: Value): TradeAction {
    ActionOfLabel(ToUpper(AsStr(Get(j, "action")).GetOr("HOLD")))
  }

  /** For example, "Buy" opens a long, "open_short" a short, and a missing action holds. */
  lemma RequestedActionExamples()
    ensures RequestedAction(Obj(map["action" := Str("Buy")])) == Buy
    ensures RequestedAction(Obj(map["action" := Str("open_short")])) == Sell
    ensures RequestedAction(EmptyObject) == Hold
    ensures RequestedAction(Obj(map["action" := Int(1)])) == Hold
  {
    assert ToUpper("Buy") == "BUY";
    assert ToUpper("open_short") == "OPEN_SHORT";
    assert ToUpper("HOLD") == "HOLD";
  }

  /** A percentage written as a whole number (5.0 for 5 %) is divided by 100, once. */
  function RescalePct(x: real): (r: real)
    ensures x <= 1.0 ==> r == x
    ensures x > 1.0 ==> r * 100.0 == x
  {
    if x > 1.0 then x / 100.0 else x
  }

  /** Rescaling lands in [0, 1] exactly for inputs in [0, 100], and is applied only once. */
  lemma RescalePctRange(x: real)
    ensures 0.0 <= x <= 100.0 <==> 0.0 <= RescalePct(x) <= 1.0
    ensures x > 100.0 ==> RescalePct(x) > 1.0
  {
  }

  const MinTakeProfit: real := 0.005
  const TakeProfitFloor: real := 0.008

  /** The take-profit of an opening action is raised to 0.8 % when below 0.5 %. */
  function FloorTakeProfit(action: TradeAction, tp: real): (r: real)
    ensures IsOpen(action) ==> r >= MinTakeProfit
    ensures IsOpen(action) && tp < MinTakeProfit ==> r == TakeProfitFloor
    ensures !IsOpen(action) || tp >= MinTakeProfit ==> r == tp
  {
    if IsOpen(action) && tp < MinTakeProfit then TakeProfitFloor else tp
  }

  const U32Bound: int := 0x1_0000_0000

  /** Rust's `f as u32`: truncation toward zero, saturating at both ends. */
  function SaturatingU32(x: real): (r: nat)
    ensures r < U32Bound
    ensures 0.0 <= x < U32Bound as real ==> r == x.Floor
    ensures x <= 0.0 ==> r == 0
    ensures x >= U32Bound as real ==> r == U32Bound - 1
  {
    if x <= 0.0 then 0 else if x >= (U32Bound - 1) as real then U32Bound - 1 else x.Floor
  }

  /** `as_u64().unwrap_or(1) as u32`: the requested leverage, wrapped to 32 bits. */
  function RawLeverage(j: Value): (r: nat)
    ensures r < U32Bound
  {
    AsU64(Get(j, "leverage")).GetOr(1) % U32Bound
  }

  /** The leverage clamp: above the cap becomes the cap, below 1 becomes 1. */
  function ClampLeverage(raw: nat, cap: nat): nat {
    if raw > cap then cap else if raw < 1 then 1 else raw
  }

  /** With a cap of at least 1 the leverage lies in [1, cap] and an in-range request is kept. */
  lemma ClampLeverageBounds(raw: nat, cap: nat)
    requires cap >= 1
    ensures 1 <= ClampLeverage(raw, cap) <= cap
    ensures 1 <= raw <= cap ==> ClampLeverage(raw, cap) == raw
  {
  }

  /** A missing leverage means 1; a request of 2^32 wraps to 0 and is lifted to 1. */
  lemma RawLeverageExamples(cap: nat)
    requires cap >= 1
    ensures ClampLeverage(RawLeverage(EmptyObject), cap) == 1
    ensures ClampLeverage(RawLeverage(Obj(map["leverage" := Int(U32Bound)])), cap) == 1
  {
  }

  /** The Kelly fraction p − (1 − p)/b for odds b, and 0 without positive odds. */
  function Kelly(p: real, b: real): real {
    if b > 0.0 then p - (1.0 - p) / b else 0.0
  }

  /** With positive odds, the Kelly fraction is positive iff the bet has positive expectation p·b > 1 − p. */
  lemma KellyPositiveIff(p: real, b: real)
    requires b > 0.0
    ensures Kelly(p, b) > 0.0 <==> p * b > 1.0 - p
  {
    DivMul(1.0 - p, b);
    if Kelly(p, b) > 0.0 {
      MulLeftStrict((1.0 - p) / b, p, b);
    } else {
      MulLeft(p, (1.0 - p) / b, b);
    }
  }

  /** The defaults p = 0.5, b = 1.5 give a Kelly fraction of 1/6. */
  lemma KellyDefault()
    ensures Kelly(0.5, 1.5) == 1.0 / 6.0
  {
  }

  /** The action and Kelly fraction after the forced HOLD. */
  function FinalActionAndKelly(requested: TradeAction, kelly: real): (r: (TradeAction, real))
    ensures r.1 >= 0.0
    ensures IsOpen(r.0) ==> r.1 > 0.0
    ensures kelly <= 0.0 && IsOpen(requested) ==> r == (Hold, 0.0)
    ensures !(kelly <= 0.0 && IsOpen(requested)) ==> r == (requested, Max(kelly, 0.0))
  {
    if kelly <= 0.0 && IsOpen(requested) then (Hold, 0.0) else (requested, Max(kelly, 0.0))
  }

  /**
   * `parse_decision`: extract the JSON, then fill each field with its default
   * and adjustment.  The tp/sl percentages are reassigned step by step as in
   * the source.
   */
  method ParseDecision(content: string, maxLeverage: real, strategyVersion: string, parse: string -> Option<Value>)
    returns (r: Result<AiDecision, string>)
    ensures ExtractJson(content, parse).Err? ==> r == Err(ExtractFailure)
    ensures ExtractJson(content, parse).Ok? <==> r.Ok?
    ensures r.Ok? ==> var j := ExtractJson(content, parse).value; var d := r.value;
      && d.tpPct == FloorTakeProfit(RequestedAction(j), RescalePct(AsF64(Get(j, "tp")).GetOr(0.04)))
      && d.slPct == RescalePct(AsF64(Get(j, "sl")).GetOr(0.02))
      && d.leverage == ClampLeverage(RawLeverage(j), SaturatingU32(maxLeverage))
      && d.winRate == AsF64(Get(j, "win_rate")).GetOr(0.5)
      && d.riskRewardRatio == AsF64(Get(j, "risk_reward_ratio")).GetOr(1.5)
      && (d.action, d.kellyFraction) == FinalActionAndKelly(RequestedAction(j), Kelly(d.winRate, d.riskRewardRatio))
      && d.reason == TextOr(j, "reason", "No reason")
      && d.strategyVersion == strategyVersion
    ensures r.Ok? ==> r.value.kellyFraction >= 0.0 && (IsOpen(r.value.action) ==> r.value.kellyFraction > 0.0)
    ensures r.Ok? && IsOpen(r.value.action) ==> r.value.tpPct >= MinTakeProfit
    ensures r.Ok? && maxLeverage >= 1.0 ==> 1 <= r.value.leverage <= SaturatingU32(maxLeverage)
  {
    var extracted := ExtractJson(content, parse);
    if extracted.Err? {
      return Err(extracted.error);
    }
    var j := extracted.value;
    var action := RequestedAction(j);

    var tpPct := AsF64(Get(j, "tp")).GetOr(0.04);
    var slPct := AsF64(Get(j, "sl")).GetOr(0.02);
    if tpPct > 1.0 { tpPct := tpPct / 100.0; }
    if slPct > 1.0 { slPct := slPct / 100.0; }
    if IsOpen(action) && tpPct < MinTakeProfit {
      tpPct := TakeProfitFloor;
    }

    var rawLeverage := RawLeverage(j);
    var cap := SaturatingU32(maxLeverage);
    var leverage := if rawLeverage > cap then cap else if rawLeverage < 1 then 1 else rawLeverage;
    if maxLeverage >= 1.0 {
      ClampLeverageBounds(rawLeverage, cap);
    }

    var p := AsF64(Get(j, "win_rate")).GetOr(0.5);
    var b := AsF64(Get(j, "risk_reward_ratio")).GetOr(1.5);
    var kellyFraction := if b > 0.0 then p - (1.0 - p) / b else 0.0;
    var finalAction, finalKelly;
    if kellyFraction <= 0.0 && IsOpen(action) {
      finalAction, finalKelly := Hold, 0.0;
    } else {
      finalAction, finalKelly := action, Max(kellyFraction, 0.0);
    }

    r := Ok(AiDecision(
      finalAction, TextOr(j, "reason", "No reason"), tpPct, slPct, leverage, p, finalKelly, b, strategyVersion));
  }
}
