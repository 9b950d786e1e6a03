/**
 * The DingTalk notifier of `utils/notifier.rs`: the keyword rule every
 * message passes through, the signed webhook URL, the send guard, the
 * trade-signal card with its colour and planned prices, and the position
 * lists of the startup and status reports.  The HTTP post and the HMAC
 * signature are outside the model: a send yields the request it would post,
 * and the signature arrives as a function.
 */
module Notifier {
  import opened Base
  import opened Text
  import opened Json
  import opened Market
  import Decimal

  /** The configuration read from the environment; the keyword defaults to "Trading". */
  datatype NotifierConfig = NotifierConfig(webhookUrl: string, secret: string, keyword: string)

  const DefaultKeyword: string := "Trading"

  /** The configuration from the three optional environment values. */
  function ConfigOf(webhook: Option<string>, secret: Option<string>, keyword: Option<string>): (c: NotifierConfig)
    ensures webhook.None? ==> c.webhookUrl == ""
    ensures secret.None? ==> c.secret == ""
    ensures keyword.None? ==> c.keyword == DefaultKeyword
  {
    NotifierConfig(webhook.GetOr(""), secret.GetOr(""), keyword.GetOr(DefaultKeyword))
  }

  // ---------------------------------------------------------------- keyword

  /** `attach_keyword`: appends "[keyword]" unless the keyword is empty or already present. */
  function AttachKeyword(keyword: string, content: string): string {
    if keyword == "" || Contains(content, keyword) then content
    else content + "\n\n[" + keyword + "]"
  }

  /** The content always survives as a prefix; a nonempty keyword always ends up in the text. */
  lemma AttachKeywordContains(keyword: string, content: string)
    ensures content <= AttachKeyword(keyword, content)
    ensures keyword != "" ==> Contains(AttachKeyword(keyword, content), keyword)
    ensures keyword == "" || Contains(content, keyword) <==> AttachKeyword(keyword, content) == content
  {
    if keyword != "" && !Contains(content, keyword) {
      ContainsMiddle(content + "\n\n[", keyword, "]");
      assert content + "\n\n[" + keyword + "]" == content + "\n\n[" + keyword + "]";
      assert |AttachKeyword(keyword, content)| > |content|;
    }
  }

  /** Attaching twice is the same as attaching once. */
  lemma AttachKeywordIdempotent(keyword: string, content: string)
    ensures AttachKeyword(keyword, AttachKeyword(keyword, content)) == AttachKeyword(keyword, content)
  {
    AttachKeywordContains(keyword, content);
  }

  // ---------------------------------------------------------------- signed URL

  /** The text the webhook secret signs: the millisecond timestamp, a newline and the secret. */
  function StringToSign(timestampMs: nat, secret: string): string {
    NatToString(timestampMs) + "\n" + secret
  }

  /**
   * `get_signed_url`: the bare webhook without a secret; otherwise the
   * webhook with `timestamp` and `sign` appended as query parameters.
   * `sign(key, message)` is the URL-encoded base64 HMAC-SHA256.
   */
  function SignedUrl(cfg: NotifierConfig, timestampMs: nat, sign: (string, string) -> string): string {
    if cfg.secret == "" then cfg.webhookUrl
    else
      var signature := sign(cfg.secret, StringToSign(timestampMs, cfg.secret));
      cfg.webhookUrl + QuerySep(cfg.webhookUrl) + SignParams(timestampMs, signature)
  }

  /** '&' when the webhook already has a query, '?' otherwise. */
  function QuerySep(webhook: string): string {
    if Contains(webhook, "?") then "&" else "?"
  }

  function SignParams(timestampMs: nat, signature: string): string {
    "timestamp=" + NatToString(timestampMs) + "&sign=" + signature
  }

  /**
   * Parameters appended to a URL extend it, never alter it; they join with
   * '&' exactly when the URL already has a query; and the result always has one.
   */
  lemma AppendQueryShape(w: string, params: string)
    ensures var url := w + QuerySep(w) + params;
      && w < url
      && (url[|w|] == '&' <==> Contains(w, "?"))
      && (url[|w|] == '?' <==> !Contains(w, "?"))
      && Contains(url, "?")
  {
    var sep := QuerySep(w);
    var url := w + sep + params;
    assert url[|w|] == sep[0];
    if Contains(w, "?") {
      ContainsAppend(w, "?", sep + params);
      assert w + (sep + params) == url;
    } else {
      assert url[|w|..|w| + 1] == "?";
      assert OccursAt(url, "?", |w|);
      ContainsIff(url, "?");
    }
  }

  /** With a secret the webhook gains the signed query; without one it is sent as it is. */
  lemma SignedUrlShape(cfg: NotifierConfig, timestampMs: nat, sign: (string, string) -> string)
    ensures cfg.secret == "" ==> SignedUrl(cfg, timestampMs, sign) == cfg.webhookUrl
    ensures cfg.secret != "" ==>
      var url := SignedUrl(cfg, timestampMs, sign);
      var w := cfg.webhookUrl;
      && w < url
      && (url[|w|] == '&' <==> Contains(w, "?"))
      && (url[|w|] == '?' <==> !Contains(w, "?"))
      && Contains(url, "?")
    ensures cfg.secret != "" ==>
      SignedUrl(cfg, timestampMs, sign)[|cfg.webhookUrl| + 1..] ==
        "timestamp=" + NatToString(timestampMs) + "&sign=" + sign(cfg.secret, NatToString(timestampMs) + "\n" + cfg.secret)
  {
    if cfg.secret != "" {
      AppendQueryShape(cfg.webhookUrl, SignParams(timestampMs, sign(cfg.secret, StringToSign(timestampMs, cfg.secret))));
    }
  }

  // ---------------------------------------------------------------- send

  /** The request a send would post: the (signed) URL and the JSON body. */
  datatype Post = Post(url: string, body: Value)

  /** `send`: nothing without a webhook, else a post of the body to the signed URL. */
  function Send(cfg: NotifierConfig, body: Value, timestampMs: nat, sign: (string, string) -> string): (r: Option<Post>)
    ensures r.None? <==> cfg.webhookUrl == ""
    ensures r.Some? ==> r.value.body == body && r.value.url == SignedUrl(cfg, timestampMs, sign)
    ensures r.Some? ==> cfg.webhookUrl <= r.value.url
  {
    if cfg.webhookUrl == "" then None
    else
      SignedUrlShape(cfg, timestampMs, sign);
      Some(Post(SignedUrl(cfg, timestampMs, sign), body))
  }

  const AlertPrefix: string := "⚠️ [RustTrader Alert]"

  /** `send_alert`: a text message of the alert prefix, a newline and the keyword-tagged content. */
  function AlertBody(cfg: NotifierConfig, content: string): Value {
    Obj(map["msgtype" := Str("text"),
            "text" := Obj(map["content" := Str(AlertPrefix + "\n" + AttachKeyword(cfg.keyword, content))])])
  }

  /** `send_markdown_raw`: a markdown message with a title and a text. */
  function MarkdownBody(title: string, text: string): Value {
    Obj(map["msgtype" := Str("markdown"),
            "markdown" := Obj(map["title" := Str(title), "text" := Str(text)])])
  }

  /** Every alert that is posted carries the keyword, when one is configured. */
  lemma AlertCarriesKeyword(cfg: NotifierConfig, content: string, timestampMs: nat, sign: (string, string) -> string)
    requires cfg.keyword != ""
    ensures var post := Send(cfg, AlertBody(cfg, content), timestampMs, sign);
      post.Some? ==>
        var text := AsStr(Get(Get(post.value.body, "text"), "content"));
        text.Some? && Contains(text.value, cfg.keyword)
  {
    AttachKeywordContains(cfg.keyword, content);
    ContainsPrepend(AlertPrefix + "\n", AttachKeyword(cfg.keyword, content), cfg.keyword);
  }

  // ---------------------------------------------------------------- trade signal

  const Green: string := "#00AA00"
  const Red: string := "#FF0000"

  /** The action names a buy, in any letter case. */
  predicate IsBuy(action: string) {
    Contains(ToLower(action), "buy")
  }

  /** Green for a buy or anything long, red otherwise. */
  function SignalColor(action: string): (c: string)
    ensures c == Green <==> IsBuy(action) || Contains(ToLower(action), "long")
    ensures c == Red <==> !(IsBuy(action) || Contains(ToLower(action), "long"))
  {
    if IsBuy(action) || Contains(ToLower(action), "long") then Green else Red
  }

  /** The planned take-profit and stop-loss prices shown on the card. */
  function PlannedPrices(action: string, price: real, tpPct: real, slPct: real): (real, real) {
    if IsBuy(action) then (price * (1.0 + tpPct), price * (1.0 - slPct))
    else (price * (1.0 - tpPct), price * (1.0 + slPct))
  }

  /**
   * For positive percentages a buy's take-profit lies above the price and its
   * stop below; any other action has them the other way round.  Zero
   * percentages (as for the close cards) put both at the price.
   */
  lemma PlannedPricesBracket(action: string, price: real, tpPct: real, slPct: real)
    requires price > 0.0
    ensures var (tp, sl) := PlannedPrices(action, price, tpPct, slPct);
      && (tpPct > 0.0 && slPct > 0.0 && IsBuy(action) ==> sl < price < tp)
      && (tpPct > 0.0 && slPct > 0.0 && !IsBuy(action) ==> tp < price < sl)
      && (tpPct == 0.0 && slPct == 0.0 ==> tp == price && sl == price)
  {
    if tpPct > 0.0 {
      MulLeftStrict(1.0, 1.0 + tpPct, price);
      MulLeftStrict(1.0 - tpPct, 1.0, price);
    }
    if slPct > 0.0 {
      MulLeftStrict(1.0, 1.0 + slPct, price);
      MulLeftStrict(1.0 - slPct, 1.0, price);
    }
  }

  /** The engine's open cards: "buy" is green with a buy's prices, "sell" red with a sell's. */
  lemma OpenCardColors()
    ensures SignalColor("buy") == Green && IsBuy("buy")
    ensures SignalColor("sell") == Red && !IsBuy("sell")
  {
    assert ToLower("buy") == "buy";
    assert OccursAt("buy", "buy", 0);
    ContainsIff("buy", "buy");
    assert ToLower("sell") == "sell";
    MissingChar("sell", "buy", 0);
    MissingChar("sell", "long", 3);
  }

  /** The engine's close-long card is green, although "CLOSE LONG" is not a buy. */
  lemma CloseLongCardColor()
    ensures SignalColor("CLOSE LONG") == Green && !IsBuy("CLOSE LONG")
  {
    var lower := ToLower("CLOSE LONG");
    assert lower == "close long";
    assert lower[6..10] == "long";
    assert OccursAt(lower, "long", 6);
    ContainsIff(lower, "long");
    MissingChar(lower, "buy", 0);
  }

  /** The engine's close-short card is red. */
  lemma CloseShortCardColor()
    ensures SignalColor("CLOSE SHORT") == Red && !IsBuy("CLOSE SHORT")
  {
    var lower := ToLower("CLOSE SHORT");
    assert lower[..5] == "close" && lower[5..] == " short";
    assert lower == lower[..5] + lower[5..];
    MissingChar(lower, "buy", 0);
    MissingChar(lower, "long", 3);
  }

  /** A pattern with a character the text lacks does not occur in it. */
  lemma MissingChar(s: string, t: string, k: nat)
    requires k < |t| && t[k] !in s
    ensures !Contains(s, t)
  {
    ContainsIff(s, t);
    forall i: nat | i + |t| <= |s| ensures !OccursAt(s, t, i) {
      assert s[i..i + |t|][k] == s[i + k];
    }
  }

  /** The card title: the action in upper case, the symbol and "(Signal)". */
  function SignalTitle(symbol: string, action: string): string {
    ToUpper(action) + " " + symbol + " (Signal)"
  }

  /** The card text before the keyword rule. */
  function SignalText(symbol: string, action: string, size: real, price: real, reason: string, tpPct: real, slPct: real): string {
    var (tpPrice, slPrice) := PlannedPrices(action, price, tpPct, slPct);
    "### <font color='" + SignalColor(action) + "'>🚀 交易执行: " + ToUpper(action) + "</font>\n\n"
    + "**标的**: " + symbol + "\n"
    + "**数量**: " + Fmt(size, 4) + " 张\n"
    + "**成交价**: $" + Fmt(price, 2) + "\n"
    + "\n---\n"
    + "**🎯 计划止盈**: $" + Fmt(tpPrice, 2) + " (" + Fmt(tpPct * 100.0, 1) + "%)\n"
    + "**🛡️ 计划止损**: $" + Fmt(slPrice, 2) + " (" + Fmt(slPct * 100.0, 1) + "%)\n"
    + "\n---\n"
    + "**🧠 AI 决策逻辑**:\n> " + reason + "\n"
  }

  /** `send_trade_signal`: the card, tagged with the keyword, as a markdown message. */
  function SendTradeSignal(cfg: NotifierConfig, symbol: string, action: string, size: real, price: real,
                           reason: string, tpPct: real, slPct: real,
                           timestampMs: nat, sign: (string, string) -> string): (r: Option<Post>)
    ensures r.None? <==> cfg.webhookUrl == ""
  {
    var text := AttachKeyword(cfg.keyword, SignalText(symbol, action, size, price, reason, tpPct, slPct));
    Send(cfg, MarkdownBody(SignalTitle(symbol, action), text), timestampMs, sign)
  }

  // ---------------------------------------------------------------- reports

  datatype PositionReportItem = PositionReportItem(
    symbol: string, side: string, notionalUsdt: real, marginUsdt: real, upl: real, leverage: nat)

  /** `symbol.split('-').next()`: the text before the first '-', or all of it. */
  function SymbolBase(symbol: string): (r: string)
    ensures r <= symbol
    ensures forall j :: 0 <= j < |r| ==> r[j] != '-'
    ensures |r| < |symbol| ==> symbol[|r|] == '-'
  {
    match Find(symbol, "-")
    case None =>
      assert forall j :: 0 <= j < |symbol| ==> symbol[j] != '-' by {
        forall j | 0 <= j < |symbol| ensures symbol[j] != '-' {
          OccursAtChar(symbol, '-', j);
        }
      }
      symbol
    case Some(i) =>
      OccursAtChar(symbol, '-', i);
      assert forall j :: 0 <= j < i ==> symbol[j] != '-' by {
        forall j | 0 <= j < i ensures symbol[j] != '-' {
          OccursAtChar(symbol, '-', j);
        }
      }
      symbol[..i]
  }

  /** Two reports list positions: the startup report and the status report. */
  datatype ReportKind = StartupReport | StatusReport

  const FlatLine: string := "> *当前无持仓 (Flat)*"

  /** Profit shows red, loss green (the East Asian market convention). */
  function PnlColor(x: real): string {
    if x >= 0.0 then Red else Green
  }

  function SideIcon(side: string): string {
    if Contains(ToLower(side), "long") then "🟢" else "🔴"
  }

  /** The first row of a position entry: side icon, symbol base and leverage. */
  function PositionHead(p: PositionReportItem): string {
    "- " + SideIcon(p.side) + " **" + SymbolBase(p.symbol) + "** (" + NatToString(p.leverage) + "x)\n"
  }

  /** `{}{:.2}` with a "+" for a nonnegative value: a positive figure shows "+", a negative one its own "-". */
  function SignedFigure(x: real): (s: string)
    ensures |s| > 0 && (s[0] == '+' <==> x >= 0.0) && (s[0] == '-' <==> x < 0.0)
  {
    (if x >= 0.0 then "+" else "") + Fmt(x, 2)
  }

  /** The unrealized PnL of a position entry: "+$x" or "$-x" at startup, "$x" in the status report. */
  function UplFigure(kind: ReportKind, upl: real): (s: string)
    ensures |s| > 1
    ensures kind == StartupReport && upl >= 0.0 ==> s[..2] == "+$"
    ensures kind == StartupReport && upl < 0.0 ==> s[..2] == "$-"
    ensures kind == StatusReport ==> s[0] == '$' && (s[1] == '-' <==> upl < 0.0)
  {
    match kind
    case StartupReport => (if upl >= 0.0 then "+" else "") + "$" + Fmt(upl, 2)
    case StatusReport => "$" + Fmt(upl, 2)
  }

  /** A loss too small to show a digit keeps its sign in every figure of the reports. */
  lemma SmallLossFigures()
    ensures PnlColor(-0.001) == Green && SignedFigure(-0.001) == "-0.00"
    ensures UplFigure(StartupReport, -0.001) == "$-0.00" && UplFigure(StatusReport, -0.001) == "$-0.00"
  {
    Decimal.SmallLossKeepsSign();
  }

  /** A coloured figure: the colour spans characters 13..20 and the figure starts at 22. */
  lemma FontCellParts(color: string, figure: string, tail: string)
    requires |color| == 7
    ensures var cell := "<font color='" + color + "'>" + figure + tail;
      |cell| >= 22 + |figure| && cell[13..20] == color && cell[22..22 + |figure|] == figure
  {
    var cell := "<font color='" + color + "'>" + figure + tail;
    assert cell == ("<font color='" + color + "'>") + figure + tail;
  }

  /** The coloured PnL of a position, signed by the value. */
  function UplCell(kind: ReportKind, upl: real): string {
    "<font color='" + PnlColor(upl) + "'>" + UplFigure(kind, upl) + "</font>"
  }

  /** The PnL cell shows the loss colour iff the PnL is negative, then the signed figure. */
  lemma UplCellShape(kind: ReportKind, upl: real)
    ensures var cell := UplCell(kind, upl);
      |cell| >= 22 + |UplFigure(kind, upl)|
      && (cell[13..20] == Green <==> upl < 0.0)
      && cell[22..22 + |UplFigure(kind, upl)|] == UplFigure(kind, upl)
  {
    FontCellParts(PnlColor(upl), UplFigure(kind, upl), "</font>");
  }

  /** The value rows of a position entry, which differ between the two reports. */
  function PositionDetail(kind: ReportKind, p: PositionReportItem): string {
    match kind
    case StartupReport =>
      "   📦 **仓位价值**: `$" + Fmt(p.notionalUsdt, 0) + "`\n"
      + "   🔒 **投入本金**: `$" + Fmt(p.marginUsdt, 0) + "`\n"
      + "   💰 **浮动盈亏**: " + UplCell(StartupReport, p.upl) + "\n\n"
    case StatusReport =>
      "   `$" + Fmt(p.notionalUsdt, 0) + "`(仓位) | `$" + Fmt(p.marginUsdt, 0) + "`(本金) | "
      + UplCell(StatusReport, p.upl) + "\n"
  }

  /** One position entry of a report. */
  function PositionLine(kind: ReportKind, p: PositionReportItem): string {
    PositionHead(p) + PositionDetail(kind, p)
  }

  /** Every position entry shows its PnL cell. */
  lemma PositionLineShowsUpl(kind: ReportKind, p: PositionReportItem)
    ensures Contains(PositionLine(kind, p), UplCell(kind, p.upl))
  {
    var cell := UplCell(kind, p.upl);
    match kind
    case StartupReport =>
      ContainsMiddle("   📦 **仓位价值**: `$" + Fmt(p.notionalUsdt, 0) + "`\n"
        + "   🔒 **投入本金**: `$" + Fmt(p.marginUsdt, 0) + "`\n" + "   💰 **浮动盈亏**: ", cell, "\n\n");
      ContainsPrepend(PositionHead(p), PositionDetail(kind, p), cell);
    case StatusReport =>
      ContainsMiddle("   `$" + Fmt(p.notionalUsdt, 0) + "`(仓位) | `$" + Fmt(p.marginUsdt, 0) + "`(本金) | ", cell, "\n");
      ContainsPrepend(PositionHead(p), PositionDetail(kind, p), cell);
  }

  /** The lines of every position, in order. */
  function PositionLines(kind: ReportKind, ps: seq<PositionReportItem>): string {
    if |ps| == 0 then "" else PositionLines(kind, ps[..|ps| - 1]) + PositionLine(kind, ps[|ps| - 1])
  }

  /** The position part of a report: the Flat line for no positions, else one line each. */
  function PositionDesc(kind: ReportKind, ps: seq<PositionReportItem>): string {
    if |ps| == 0 then FlatLine else PositionLines(kind, ps)
  }

  /** Every position line starts with "- " and names the base of its symbol. */
  lemma PositionLineShape(kind: ReportKind, p: PositionReportItem)
    ensures |PositionLine(kind, p)| > 0 && PositionLine(kind, p)[0] == '-'
    ensures Contains(PositionLine(kind, p), SymbolBase(p.symbol))
  {
    var pre := "- " + SideIcon(p.side) + " **";
    var post := "** (" + NatToString(p.leverage) + "x)\n";
    assert PositionHead(p) == pre + SymbolBase(p.symbol) + post;
    ContainsMiddle(pre, SymbolBase(p.symbol), post);
    ContainsAppend(PositionHead(p), SymbolBase(p.symbol), PositionDetail(kind, p));
  }

  /** A nonempty list starts with its first line, so it never reads as the Flat line. */
  lemma {:induction false} PositionLinesStart(kind: ReportKind, ps: seq<PositionReportItem>)
    requires |ps| > 0
    ensures |PositionLines(kind, ps)| > 0 && PositionLines(kind, ps)[0] == '-'
  {
    if |ps| == 1 {
      PositionLineShape(kind, ps[0]);
      assert PositionLines(kind, ps) == "" + PositionLine(kind, ps[0]);
    } else {
      PositionLinesStart(kind, ps[..|ps| - 1]);
    }
  }

  /** Every listed position's symbol base appears in the list. */
  lemma {:induction false} PositionLinesNameEach(kind: ReportKind, ps: seq<PositionReportItem>, i: nat)
    requires i < |ps|
    ensures Contains(PositionLines(kind, ps), SymbolBase(ps[i].symbol))
  {
    var init := ps[..|ps| - 1];
    if i == |ps| - 1 {
      PositionLineShape(kind, ps[i]);
      ContainsPrepend(PositionLines(kind, init), PositionLine(kind, ps[i]), SymbolBase(ps[i].symbol));
    } else {
      PositionLinesNameEach(kind, init, i);
      assert init[i] == ps[i];
      ContainsAppend(PositionLines(kind, init), SymbolBase(ps[i].symbol), PositionLine(kind, ps[|ps| - 1]));
    }
  }

  /** The description is the Flat line exactly when there are no positions, and names every position otherwise. */
  lemma PositionDescFlatIff(kind: ReportKind, ps: seq<PositionReportItem>)
    ensures PositionDesc(kind, ps) == FlatLine <==> |ps| == 0
    ensures forall i :: 0 <= i < |ps| ==> Contains(PositionDesc(kind, ps), SymbolBase(ps[i].symbol))
  {
    if |ps| > 0 {
      PositionLinesStart(kind, ps);
      assert FlatLine[0] == '>';
      forall i | 0 <= i < |ps| ensures Contains(PositionDesc(kind, ps), SymbolBase(ps[i].symbol)) {
        PositionLinesNameEach(kind, ps, i);
      }
    }
  }

  /** The `for p in positions` loop that builds a report's position part. */
  method DescribePositions(kind: ReportKind, positions: seq<PositionReportItem>) returns (desc: string)
    ensures desc == PositionDesc(kind, positions)
  {
    desc := "";
    if |positions| == 0 {
      desc := FlatLine;
    } else {
      for i := 0 to |positions|
        invariant desc == PositionLines(kind, positions[..i])
      {
        assert positions[..i + 1][..i] == positions[..i];
        desc := desc + PositionLine(kind, positions[i]);
      }
      assert positions[..|positions|] == positions;
    }
  }

  /** The startup report text before the keyword rule. */
  function StartupReportText(initialCapital: real, startTime: string, posDesc: string): string {
    "### Rust Trader V6.0 (HK Node)\n\n"
    + "---\n"
    + "💰 **初始本金**: `$" + Fmt(initialCapital, 2) + "`\n"
    + "🕒 **启动时间**: " + startTime + "\n"
    + "📊 **本轮收益**: `0.00%` (基准已建立)\n"
    + "\n---\n"
    + "#### 🏷️ 初始持仓详情\n"
    + posDesc
  }

  /** The status report text before the keyword rule: equity, signed cumulative return and the positions. */
  function StatusReportText(equity: real, pnlPct: real, posDesc: string): string {
    "### 🤖 系统运行状态\n\n"
    + "💰 **当前权益**: `$" + Fmt(equity, 2) + "`\n"
    + "📈 **累计收益**: " + ReturnCell(pnlPct) + "\n\n"
    + "🏷️ **持仓资金分布**:\n" + posDesc
  }

  /** The cumulative return as the status report shows it: coloured and signed by the value. */
  function ReturnCell(pnlPct: real): string {
    "<font color='" + PnlColor(pnlPct) + "'>" + SignedFigure(pnlPct) + "%</font>"
  }

  /** The status report shows the return cell: the loss colour iff the return is negative, then "+" or "-" by its sign. */
  lemma StatusReportShowsReturn(equity: real, pnlPct: real, posDesc: string)
    ensures Contains(StatusReportText(equity, pnlPct, posDesc), ReturnCell(pnlPct))
    ensures var cell := ReturnCell(pnlPct);
      |cell| > 22 && (cell[13..20] == Green <==> pnlPct < 0.0)
      && (cell[22] == '-' <==> pnlPct < 0.0) && (cell[22] == '+' <==> pnlPct >= 0.0)
  {
    var cell := ReturnCell(pnlPct);
    FontCellParts(PnlColor(pnlPct), SignedFigure(pnlPct), "%</font>");
    assert cell[22] == SignedFigure(pnlPct)[0];
    var pre := "### 🤖 系统运行状态\n\n" + "💰 **当前权益**: `$" + Fmt(equity, 2) + "`\n" + "📈 **累计收益**: ";
    ContainsSuffix(pre, cell);
    ContainsAppend(pre + cell, cell, "\n\n");
    ContainsAppend(pre + cell + "\n\n", cell, "🏷️ **持仓资金分布**:\n");
    ContainsAppend(pre + cell + "\n\n" + "🏷️ **持仓资金分布**:\n", cell, posDesc);
  }

  const StartupTitle: string := "🚀 系统已启动 (Boot)"
  const StatusTitle: string := "📊 运行周报"

  /** `send_startup_report`. */
  method SendStartupReport(cfg: NotifierConfig, initialCapital: real, startTime: string,
                           positions: seq<PositionReportItem>, timestampMs: nat,
                           sign: (string, string) -> string) returns (r: Option<Post>)
    ensures r.None? <==> cfg.webhookUrl == ""
    ensures r == Send(cfg, MarkdownBody(StartupTitle,
                  AttachKeyword(cfg.keyword, StartupReportText(initialCapital, startTime, PositionDesc(StartupReport, positions)))),
                  timestampMs, sign)
  {
    var posDesc := DescribePositions(StartupReport, positions);
    var text := AttachKeyword(cfg.keyword, StartupReportText(initialCapital, startTime, posDesc));
    r := Send(cfg, MarkdownBody(StartupTitle, text), timestampMs, sign);
  }

  /** `send_status_report`. */
  method SendStatusReport(cfg: NotifierConfig, equity: real, pnlPct: real,
                          positions: seq<PositionReportItem>, timestampMs: nat,
                          sign: (string, string) -> string) returns (r: Option<Post>)
    ensures r.None? <==> cfg.webhookUrl == ""
    ensures r == Send(cfg, MarkdownBody(StatusTitle,
                  AttachKeyword(cfg.keyword, StatusReportText(equity, pnlPct, PositionDesc(StatusReport, positions)))),
                  timestampMs, sign)
  {
    var posDesc := DescribePositions(StatusReport, positions);
    var text := AttachKeyword(cfg.keyword, StatusReportText(equity, pnlPct, posDesc));
    r := Send(cfg, MarkdownBody(StatusTitle, text), timestampMs, sign);
  }
}
