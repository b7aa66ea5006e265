/** The commodity pipeline of `scripts/commodity_agents.py`: the spot-price
    step of data gathering with its scraping fallback, two bull/bear rounds,
    the investment judge, the three risk analysts with their truncated views
    of the debate, and the final risk judge whose parse failure becomes an
    IGNORE record. Backend replies are inputs; a prompt is recorded as the
    state it was built from. */
module CommodityAgents {
  import opened Wrappers
  import opened JsonValue
  import opened Text
  import opened GeminiUtils
  import opened UniversalAgents

  // ---------------------------------------------------------------------------
  // data_gatherer: the spot price

  /** The price reply as `data_gatherer` cleans it before decoding: trimmed,
      and when it opens a fence, the first fenced section with one `json` tag
      removed. A bare trailing fence is kept (the risk judge removes it). */
  function PriceText(text: string): (t: string)
    ensures !StartsWith(Strip(text), "```") ==> t == Strip(text)
    ensures StartsWith(Strip(text), "```") ==> t == StripMarkdownCodeBlock(text)
  {
    var t := Strip(text);
    if StartsWith(t, "```") then
      StripFencedSection(text);
      Strip(DropJsonTag(Split(t, "```")[1]))
    else t
  }

  /** The two cleanings part on a reply that only closes a fence: the price
      step keeps the fence, the risk judge drops it. */
  lemma TrailingFenceKept(body: string)
    requires body != [] && '`' !in body
    requires !IsSpace(body[0]) && !IsSpace(body[|body| - 1])
    ensures PriceText(body + "```") == body + "```"
    ensures StripMarkdownCodeBlock(body + "```") == body
  {
    var s := body + "```";
    assert s[0] == body[0] && s[|s| - 1] == '`';
    StripNoSpaceAround(s);
    assert s[..3][0] == body[0];
    assert !StartsWith(s, "```");
    assert s[|s| - 3..] == "```";
    assert s[..|s| - 3] == body;
    StripNoSpaceAround(body);
  }

  /** The spot price and where it came from. */
  datatype SpotPrice = SpotPrice(price: Json, source: Json)

  /** The price step of `data_gatherer`: a decoded dict gives `price_usd`
      (default 0) and `source` (default "unknown"); any other decoded value
      reaches `.get` and raises AttributeError; undecodable text falls back to
      the scraped price (or 0) with source "extracted", and a scraped group
      `float` rejects raises. */
  function CommodityPrice(decode: string -> Option<Json>, reply: string): (r: Result<SpotPrice, PyError>)
    ensures decode(PriceText(reply)).Some? && decode(PriceText(reply)).value.JObj? ==>
              var m := decode(PriceText(reply)).value.fields;
              r == Ok(SpotPrice(Get(m, "price_usd", JNum(0.0)), Get(m, "source", JStr("unknown"))))
    ensures decode(PriceText(reply)).Some? && !decode(PriceText(reply)).value.JObj? ==> r == Err(AttributeError)
    ensures decode(PriceText(reply)).None? ==>
              (r.Err? <==> ExtractPriceFromText(reply).Err?)
              && (r.Err? ==> r.error == ValueError)
              && (r.Ok? ==> r.value == SpotPrice(JNum(ExtractPriceFromText(reply).value.GetOr(0.0)), JStr("extracted")))
  {
    match decode(PriceText(reply))
    case Some(JObj(m)) => Ok(SpotPrice(Get(m, "price_usd", JNum(0.0)), Get(m, "source", JStr("unknown"))))
    case Some(_) => Err(AttributeError)
    case None =>
      match ExtractPriceFromText(reply)
      case Err(e) => Err(e)
      case Ok(v) => Ok(SpotPrice(JNum(v.GetOr(0.0)), JStr("extracted")))
  }

  /** A fenced JSON dict holding `price_usd` and `source` yields exactly
      those two values. */
  lemma FencedSpotPrice(decode: string -> Option<Json>, body: string, m: map<string, Json>)
    requires !Contains(body, "```") && (body == [] || body[|body| - 1] != '`')
    requires decode(Strip(body)) == Some(JObj(m)) && "price_usd" in m && "source" in m
    ensures CommodityPrice(decode, "```json" + body + "```") == Ok(SpotPrice(m["price_usd"], m["source"]))
  {
    FencedPriceText(body);
    DictSpotPrice(decode, "```json" + body + "```", m);
  }

  /** The price step cleans a fenced reply down to its trimmed body. */
  lemma FencedPriceText(body: string)
    requires !Contains(body, "```") && (body == [] || body[|body| - 1] != '`')
    ensures PriceText("```json" + body + "```") == Strip(body)
  {
    var s := "```json" + body + "```";
    FencedSection(body, s);
    FenceRoundTrip(body);
  }

  /** A decoded dict holding both keys gives their values. */
  lemma DictSpotPrice(decode: string -> Option<Json>, reply: string, m: map<string, Json>)
    requires decode(PriceText(reply)) == Some(JObj(m)) && "price_usd" in m && "source" in m
    ensures CommodityPrice(decode, reply) == Ok(SpotPrice(m["price_usd"], m["source"]))
  {
  }

  /** A plain dollar amount the decoder rejects is scraped as that amount. */
  lemma ScrapedSpotPrice(decode: string -> Option<Json>, n: nat)
    requires decode("$" + NatToString(n)).None?
    ensures CommodityPrice(decode, "$" + NatToString(n)) == Ok(SpotPrice(JNum(n as real), JStr("extracted")))
  {
    var t := "$" + NatToString(n);
    assert IsDigit(t[|t| - 1]) by {
      assert t[|t| - 1] in NatToString(n);
    }
    StripNoSpaceAround(t);
    assert !StartsWith(t, "```") by {
      if |t| >= 3 { assert t[..3][0] == t[0]; }
    }
    assert PriceText(t) == t;
    PriceOfDollarAmount(n);
  }

  /** What `data_gatherer` returns: the spot price and the four raw texts. */
  datatype CommodityData = CommodityData(
    currentPrice: Json,
    priceSource: Json,
    marketData: string,
    newsData: string,
    cotData: string,
    supplyDemandData: string)

  /** `data_gatherer` over the price, market, news, COT and supply/demand
      replies, when every call returned; of the steps after the calls only
      the parsing of the price can raise. */
  function GatherCommodityData(decode: string -> Option<Json>, replies: seq<string>)
    : (r: Result<CommodityData, PyError>)
    requires |replies| == 5
    ensures r.Err? <==> CommodityPrice(decode, replies[0]).Err?
    ensures r.Err? ==> r.error == CommodityPrice(decode, replies[0]).error
    ensures r.Ok? ==> var p := CommodityPrice(decode, replies[0]).value;
                      r.value == CommodityData(p.price, p.source, replies[1], replies[2], replies[3], replies[4])
  {
    match CommodityPrice(decode, replies[0])
    case Err(e) => Err(e)
    case Ok(p) => Ok(CommodityData(p.price, p.source, replies[1], replies[2], replies[3], replies[4]))
  }

  // ---------------------------------------------------------------------------
  // the debate state and what each role is shown

  /** `CommodityDebateState` with the gathered fields grouped. */
  datatype CommodityState = CommodityState(
    commodity: string,
    commoditySymbol: string,
    data: CommodityData,
    bullArguments: string,
    bearArguments: string,
    investmentDebateHistory: string,
    investmentDecision: string,
    riskyArguments: string,
    safeArguments: string,
    neutralArguments: string,
    riskDebateHistory: string,
    finalDecision: Json)

  /** The parts of the state a role's prompt interpolates, besides the
      commodity, the price and the gathered texts. */
  datatype View =
    | BullView(counter: Option<string>)
    | BearView(counter: Option<string>)
    | JudgeView(history: string, bull: string, bear: string)
    | RiskyView(decision: string, summary: string)
    | SafeView(decision: string, risky: string)
    | NeutralView(decision: string, risky: string, safe: string)
    | RiskJudgeView(decision: string, debate: string, risky: string, safe: string, neutral: string,
                    priceEur: real)

  /** The risky analyst reads this much of the debate history. */
  const RiskySummaryLength: nat := 1500
  /** The risk judge reads this much of the debate history. */
  const RiskJudgeDebateLength: nat := 2000

  /** The views of the first `n` bull/bear rounds: the bull is shown the
      previous bear's text, the bear the same round's bull text. */
  function DebateViews(replies: seq<string>, n: nat): (vs: seq<View>)
    requires 2 * n <= |replies|
    ensures |vs| == 2 * n
  {
    if n == 0 then []
    else DebateViews(replies, n - 1)
         + [BullView(Counter(if n == 1 then "" else replies[2 * n - 3])), BearView(Counter(replies[2 * n - 2]))]
  }

  function InvestmentJudgeBlock(text: string): string
  {
    "\n\n### INVESTMENT JUDGE:\n" + text
  }

  const RiskyHeader := "\n### RISKY ANALYST:\n"
  const SafeHeader := "\n\n### SAFE ANALYST:\n"
  const NeutralHeader := "\n\n### NEUTRAL ANALYST:\n"

  /** `risk_debate_history`. */
  function RiskHistory(risky: string, safe: string, neutral: string): string
  {
    RiskyHeader + risky + SafeHeader + safe + NeutralHeader + neutral + "\n"
  }

  /** The risk history holds the risky, the safe and the neutral text, each
      after its header and in that order. */
  lemma RiskHistoryOrder(risky: string, safe: string, neutral: string)
    ensures var h := RiskHistory(risky, safe, neutral);
            var i := |RiskyHeader|;
            var j := i + |risky| + |SafeHeader|;
            var k := j + |safe| + |NeutralHeader|;
            k + |neutral| < |h|
            && h[..i] == RiskyHeader && h[i..i + |risky|] == risky
            && h[i + |risky|..j] == SafeHeader && h[j..j + |safe|] == safe
            && h[j + |safe|..k] == NeutralHeader && h[k..k + |neutral|] == neutral
  {
    var h := RiskHistory(risky, safe, neutral);
    var a := RiskyHeader + risky;
    var b := a + SafeHeader;
    var c := b + safe;
    var d := c + NeutralHeader;
    var e := d + neutral;
    assert h == e + "\n";
    assert h[..|e|] == e && e[..|d|] == d && d[..|c|] == c && c[..|b|] == b && b[..|a|] == a;
  }

  // ---------------------------------------------------------------------------
  // risk_judge

  /** The approximate EUR per USD the risk judge converts with. */
  const EurPerUsd: real := 0.92

  const ParseErrorPrefix := "Error parsing risk judge response: "
  const RawResponseHeader := "\n\nRaw response:\n"
  /** The length of the raw-response excerpt in the error record. */
  const RawExcerptLength: nat := 500

  /** The record returned when the cleaned reply does not decode; `error` is
      the decoder's message. */
  function ParseFailureRecord(priceUsd: Json, priceEur: real, error: string, response: string): (d: Json)
    ensures d.JObj? && "timeframes" !in d.fields && "hold_alternative" !in d.fields
    ensures var m := d.fields;
            Get(m, "signal", JNull) == JStr("IGNORE") && Get(m, "confidence", JNull) == JNum(0.0)
            && Get(m, "unable_to_assess", JNull) == JBool(true)
            && Get(m, "price_usd", JNull) == priceUsd && Get(m, "price_eur", JNull) == JNum(priceEur)
            && Get(m, "strategies", JNull) == JObj(map[])
            && Get(m, "support_zones", JNull) == JArr([]) && Get(m, "resistance_zones", JNull) == JArr([])
    ensures var n := if |response| <= RawExcerptLength then |response| else RawExcerptLength;
            Get(d.fields, "detailed_analysis", JNull)
            == JStr(ParseErrorPrefix + error + RawResponseHeader + response[..n])
  {
    var m := map[
      "signal" := JStr("IGNORE"),
      "confidence" := JNum(0.0),
      "unable_to_assess" := JBool(true),
      "price_usd" := priceUsd,
      "price_eur" := JNum(priceEur),
      "strategies" := JObj(map[]),
      "support_zones" := JArr([]),
      "resistance_zones" := JArr([]),
      "detailed_analysis" := JStr(ParseErrorPrefix + error + RawResponseHeader + Take(response, RawExcerptLength))];
    JObj(m)
  }

  /** The error record does not have the schema's shape: it has no
      timeframes and its strategies dict is empty. */
  lemma ParseFailureOutsideSchema(priceUsd: Json, priceEur: real, error: string, response: string)
    ensures DecisionOf(ParseFailureRecord(priceUsd, priceEur, error, response)).None?
  {
    var d := ParseFailureRecord(priceUsd, priceEur, error, response);
    assert "strategies" in d.fields;
    assert StrategiesOf(d.fields["strategies"]).None?;
  }

  /** What `risk_judge` returns for the judge's reply: whatever the cleaned
      reply decodes to (any JSON value), else the error record. `errorText`
      is the decoder's message for a text it rejects. */
  function CommodityJudgeDecision(decode: string -> Option<Json>, errorText: string -> string, response: string,
                                  priceUsd: Json, priceEur: real): (d: Json)
    ensures var t := StripMarkdownCodeBlock(response);
            (decode(t).Some? ==> d == decode(t).value)
            && (decode(t).None? ==> d == ParseFailureRecord(priceUsd, priceEur, errorText(t), response))
  {
    var t := StripMarkdownCodeBlock(response);
    match decode(t)
    case Some(j) => j
    case None => ParseFailureRecord(priceUsd, priceEur, errorText(t), response)
  }

  /** A fenced JSON reply is decoded from its trimmed body. */
  lemma FencedJudgeReply(decode: string -> Option<Json>, errorText: string -> string, body: string,
                         priceUsd: Json, priceEur: real)
    requires !Contains(body, "```") && (body == [] || body[|body| - 1] != '`')
    requires decode(Strip(body)).Some?
    ensures CommodityJudgeDecision(decode, errorText, "```json" + body + "```", priceUsd, priceEur)
            == decode(Strip(body)).value
  {
    FenceRoundTrip(body);
  }

  // ---------------------------------------------------------------------------
  // run_commodity_analysis

  /** The dict `run_commodity_analysis` returns. */
  datatype CommodityOutput = CommodityOutput(tradeDecision: Json, finalTradeDecision: Json, commodityMode: bool)

  /** The state `run_commodity_analysis` starts the debate from. */
  function InitialCommodityState(symbol: string, data: CommodityData): CommodityState
  {
    CommodityState(Capitalize(symbol), Upper(symbol), data, "", "", "", "", "", "", "", "", JObj(map[]))
  }

  /** The display name and the symbol agree up to case. */
  lemma CommodityNames(symbol: string, data: CommodityData)
    ensures var s := InitialCommodityState(symbol, data);
            Upper(s.commodity) == s.commoditySymbol
            && (symbol != [] ==> !IsAsciiLower(s.commodity[0]))
            && forall i :: 1 <= i < |symbol| ==> !IsAsciiUpper(s.commodity[i])
  {
    var c := Capitalize(symbol);
    assert InitialCommodityState(symbol, data).commodity == c;
    forall i | 0 <= i < |symbol|
      ensures UpperChar(c[i]) == UpperChar(symbol[i])
      ensures i >= 1 ==> !IsAsciiUpper(c[i])
    {
      if i > 0 {
        assert c[i] == LowerChar(symbol[i]);
      }
    }
    assert Upper(c) == Upper(symbol);
  }

  /** The two bull/bear rounds: each reply is stored and appended to the
      transcript. */
  method InvestmentRounds(replies: seq<string>, s0: CommodityState) returns (state: CommodityState, views: seq<View>)
    requires |replies| >= 4 && s0.bullArguments == "" && s0.bearArguments == ""
    ensures state == s0.(bullArguments := replies[2], bearArguments := replies[3],
                         investmentDebateHistory := DebateTranscript(replies, 2))
    ensures views == DebateViews(replies, 2)
  {
    state := s0;
    views := [];
    var history := "";
    for round := 0 to 2
      invariant history == DebateTranscript(replies, round)
      invariant views == DebateViews(replies, round)
      invariant round == 0 ==> state == s0
      invariant round > 0 ==> state == s0.(bullArguments := replies[2 * round - 2],
                                           bearArguments := replies[2 * round - 1],
                                           investmentDebateHistory := history)
    {
      views := views + [BullView(Counter(state.bearArguments))];
      var bull := replies[2 * round];
      state := state.(bullArguments := bull);
      history := history + RoundBlock("BULL", round + 1, bull);

      views := views + [BearView(Counter(state.bullArguments))];
      var bear := replies[2 * round + 1];
      state := state.(bearArguments := bear);
      history := history + RoundBlock("BEAR", round + 1, bear);

      state := state.(investmentDebateHistory := history);
    }
  }

  /** The investment judge and the three risk analysts; `replies` are the
      judge's, the risky, the safe and the neutral analyst's texts. */
  method RiskRounds(replies: seq<string>, s0: CommodityState) returns (state: CommodityState, views: seq<View>)
    requires |replies| >= 4
    ensures var history := s0.investmentDebateHistory + InvestmentJudgeBlock(replies[0]);
            state == s0.(investmentDebateHistory := history, investmentDecision := ExtractDecision(replies[0]),
                         riskyArguments := replies[1], safeArguments := replies[2], neutralArguments := replies[3],
                         riskDebateHistory := RiskHistory(replies[1], replies[2], replies[3]))
    ensures var history := s0.investmentDebateHistory + InvestmentJudgeBlock(replies[0]);
            var decision := ExtractDecision(replies[0]);
            views == [JudgeView(s0.investmentDebateHistory, s0.bullArguments, s0.bearArguments),
                      RiskyView(decision, Take(history, RiskySummaryLength)),
                      SafeView(decision, replies[1]), NeutralView(decision, replies[1], replies[2])]
  {
    state := s0;
    views := [JudgeView(state.investmentDebateHistory, state.bullArguments, state.bearArguments)];
    var judge := replies[0];
    state := state.(investmentDebateHistory := state.investmentDebateHistory + InvestmentJudgeBlock(judge));
    state := state.(investmentDecision := ExtractDecision(judge));

    views := views + [RiskyView(state.investmentDecision, Take(state.investmentDebateHistory, RiskySummaryLength))];
    state := state.(riskyArguments := replies[1]);
    views := views + [SafeView(state.investmentDecision, state.riskyArguments)];
    state := state.(safeArguments := replies[2]);
    views := views + [NeutralView(state.investmentDecision, state.riskyArguments, state.safeArguments)];
    state := state.(neutralArguments := replies[3]);
    state := state.(riskDebateHistory := RiskHistory(state.riskyArguments, state.safeArguments,
                                                     state.neutralArguments));
  }

  /** The state after both debates; `replies` are the eight role texts in
      call order. */
  function DebatedCommodityState(s0: CommodityState, replies: seq<string>): CommodityState
    requires |replies| >= 8
  {
    s0.(bullArguments := replies[2], bearArguments := replies[3],
        investmentDebateHistory := DebateTranscript(replies, 2) + InvestmentJudgeBlock(replies[4]),
        investmentDecision := ExtractDecision(replies[4]),
        riskyArguments := replies[5], safeArguments := replies[6], neutralArguments := replies[7],
        riskDebateHistory := RiskHistory(replies[5], replies[6], replies[7]))
  }

  /** The views of the eight role calls, in call order. */
  function CommodityViews(replies: seq<string>): (vs: seq<View>)
    requires |replies| >= 8
    ensures |vs| == 8
  {
    var decision := ExtractDecision(replies[4]);
    var history := DebateTranscript(replies, 2) + InvestmentJudgeBlock(replies[4]);
    DebateViews(replies, 2)
    + [JudgeView(DebateTranscript(replies, 2), replies[2], replies[3]),
       RiskyView(decision, Take(history, RiskySummaryLength)),
       SafeView(decision, replies[5]), NeutralView(decision, replies[5], replies[6])]
  }

  /** The risk judge's view of a debated state. */
  function RiskJudgeViewOf(s: CommodityState, priceEur: real): View
  {
    RiskJudgeView(s.investmentDecision, Take(s.investmentDebateHistory, RiskJudgeDebateLength), s.riskyArguments,
                  s.safeArguments, s.neutralArguments, priceEur)
  }

  /** The EUR price the risk judge converts to. */
  function CommodityEur(price: Json): real
    requires AsNumber(price).Some?
  {
    AsNumber(price).value * EurPerUsd
  }

  /** A debated state once the risk judge's decision is stored. */
  function JudgedCommodityState(decode: string -> Option<Json>, errorText: string -> string, s: CommodityState,
                                judgeReply: string): CommodityState
    requires AsNumber(s.data.currentPrice).Some?
  {
    s.(finalDecision := CommodityJudgeDecision(decode, errorText, judgeReply, s.data.currentPrice,
                                               CommodityEur(s.data.currentPrice)))
  }

  /** After the debates the transcript is the two rounds and then exactly one
      investment-judge block; the decision is the judge's marker. */
  lemma CommodityTranscript(s0: CommodityState, replies: seq<string>)
    requires |replies| >= 8
    ensures var s := DebatedCommodityState(s0, replies);
            s.investmentDebateHistory
            == RoundBlock("BULL", 1, replies[0]) + RoundBlock("BEAR", 1, replies[1])
               + RoundBlock("BULL", 2, replies[2]) + RoundBlock("BEAR", 2, replies[3])
               + InvestmentJudgeBlock(replies[4])
            && s.investmentDecision in {"LONG", "SHORT", "HOLD"}
  {
    TwoRoundTranscript(replies);
  }

  /** The first bull has no counter-section, each later speaker is shown the
      one before; the judge reads the final bull and bear texts; the risky
      analyst reads at most the first 1500 characters of the history
      (including the judge's block), and the risk judge at most the first
      2000. */
  lemma CommodityViewsOrder(s0: CommodityState, replies: seq<string>, priceEur: real)
    requires |replies| >= 8
    ensures var vs := CommodityViews(replies);
            vs[0] == BullView(None) && vs[1] == BearView(Counter(replies[0]))
            && vs[2] == BullView(Counter(replies[1])) && vs[3] == BearView(Counter(replies[2]))
            && vs[4] == JudgeView(DebateTranscript(replies, 2), replies[2], replies[3])
    ensures var history := DebatedCommodityState(s0, replies).investmentDebateHistory;
            var summary := CommodityViews(replies)[5].summary;
            |summary| <= RiskySummaryLength && StartsWith(history, summary)
            && (|history| <= RiskySummaryLength ==> summary == history)
    ensures var s := DebatedCommodityState(s0, replies);
            var debate := RiskJudgeViewOf(s, priceEur).debate;
            |debate| <= RiskJudgeDebateLength && StartsWith(s.investmentDebateHistory, debate)
            && (|s.investmentDebateHistory| <= RiskJudgeDebateLength ==> debate == s.investmentDebateHistory)
  {
    var vs := CommodityViews(replies);
    assert DebateViews(replies, 2)
           == [BullView(None), BearView(Counter(replies[0])), BullView(Counter(replies[1])),
               BearView(Counter(replies[2]))];
    assert vs[..4] == DebateViews(replies, 2);
  }

  /** `data_gatherer` with its five calls as outcomes. `call_gemini_with_search`
      has no handler, so a call that raises ends it with that exception: the
      price call before the price is parsed, the other four after. */
  function GatherCommodityCalls(decode: string -> Option<Json>, calls: seq<CallOutcome>)
    : (r: Result<CommodityData, PyError>)
    requires |calls| == 5
    ensures calls[0].Raised? ==> r == Err(BackendError)
    ensures calls[0].Returned? && CommodityPrice(decode, calls[0].text).Err? ==>
              r == Err(CommodityPrice(decode, calls[0].text).error)
    ensures calls[0].Returned? && CommodityPrice(decode, calls[0].text).Ok? && SomeRaised(calls) ==>
              r == Err(BackendError)
    ensures !SomeRaised(calls) ==>
              r == GatherCommodityData(decode, [calls[0].text, calls[1].text, calls[2].text, calls[3].text,
                                                calls[4].text])
  {
    if calls[0].Raised? then Err(BackendError)
    else
      match CommodityPrice(decode, calls[0].text)
      case Err(e) => Err(e)
      case Ok(_) =>
        if SomeRaised(calls) then Err(BackendError)
        else GatherCommodityData(decode, [calls[0].text, calls[1].text, calls[2].text, calls[3].text, calls[4].text])
  }

  /** `run_commodity_analysis`. `gatherCalls` are the outcomes of the price,
      market, news, COT and supply/demand calls; `roleReplies` are, in call order, bull 1,
      bear 1, bull 2, bear 2, the investment judge, risky, safe and neutral;
      `judgeReply` is the risk judge's text. `views` records what each role
      was shown. */
  method RunCommodityAnalysis(decode: string -> Option<Json>, errorText: string -> string, symbol: string,
                              gatherCalls: seq<CallOutcome>, roleReplies: seq<string>, judgeReply: string)
    returns (r: Result<CommodityOutput, PyError>, state: CommodityState, views: seq<View>)
    requires |gatherCalls| == 5 && |roleReplies| == 8
    ensures var g := GatherCommodityCalls(decode, gatherCalls);
            (g.Err? ==> r == Err(g.error) && views == [])
            && (g.Ok? && FormatError(g.value.currentPrice).Some? ==>
                  r == Err(FormatError(g.value.currentPrice).value) && views == [])
    ensures var g := GatherCommodityCalls(decode, gatherCalls);
            g.Ok? && FormatError(g.value.currentPrice).None? ==>
              var debated := DebatedCommodityState(InitialCommodityState(symbol, g.value), roleReplies);
              state == JudgedCommodityState(decode, errorText, debated, judgeReply)
              && views == CommodityViews(roleReplies) + [RiskJudgeViewOf(debated, CommodityEur(g.value.currentPrice))]
    ensures r.Ok? ==> state.finalDecision.JObj?
                      && FormatError(Get(state.finalDecision.fields, "confidence", JNum(0.0))).None?
                      && r.value == CommodityOutput(state.finalDecision,
                                                    Get(state.finalDecision.fields, "detailed_analysis", JStr("")),
                                                    true)
  {
    views := [];
    var g := GatherCommodityCalls(decode, gatherCalls);
    var placeholder := InitialCommodityState(symbol, CommodityData(JNum(0.0), JStr(""), "", "", "", ""));
    if g.Err? {
      return Err(g.error), placeholder, views;
    }
    // the progress line formats the spot price with two decimals
    var priceError := FormatError(g.value.currentPrice);
    if priceError.Some? {
      return Err(priceError.value), placeholder, views;
    }
    state := InitialCommodityState(symbol, g.value);

    var debateViews, riskViews;
    state, debateViews := InvestmentRounds(roleReplies, state);
    state, riskViews := RiskRounds(roleReplies[4..], state);
    views := debateViews + riskViews;

    // the risk judge
    var priceEur := CommodityEur(state.data.currentPrice);
    views := views + [RiskJudgeViewOf(state, priceEur)];
    var decision := CommodityJudgeDecision(decode, errorText, judgeReply, state.data.currentPrice, priceEur);
    state := state.(finalDecision := decision);

    // the progress lines read `signal` and format `confidence`
    if !decision.JObj? {
      return Err(AttributeError), state, views;
    }
    var confidenceError := FormatError(Get(decision.fields, "confidence", JNum(0.0)));
    if confidenceError.Some? {
      return Err(confidenceError.value), state, views;
    }
    r := Ok(CommodityOutput(decision, Get(decision.fields, "detailed_analysis", JStr("")), true));
  }
}
