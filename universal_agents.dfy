/** The asset-agnostic analysis pipeline of `scripts/universal_agents.py`:
    asset classification, the EUR/USD fallback chain, data gathering with
    placeholder defaults, two bull/bear debate rounds, the directional judge,
    the three risk analysts, and the final risk judge with its degraded
    record. Backend replies are inputs; a prompt is recorded as the state it
    was built from. */
module UniversalAgents {
  import opened Wrappers
  import opened JsonValue
  import opened Text
  import opened GeminiUtils

  // ---------------------------------------------------------------------------
  // detect_asset_type

  datatype AssetType = Commodity | Crypto | Etf | Stock

  /** The string stored under `asset_type`. */
  function AssetTypeName(t: AssetType): string
  {
    match t
    case Commodity => "commodity"
    case Crypto => "crypto"
    case Etf => "etf"
    case Stock => "stock"
  }

  const Commodities: set<string> := {"silver", "gold", "oil", "copper", "platinum", "palladium"}
  const CryptoSymbols: set<string> := {"btc", "eth", "bitcoin", "ethereum"}
  const Etfs: set<string> := {"spy", "qqq", "iwm", "dia", "voo", "vti", "arkk", "xlf", "xle"}

  /** A commodity name in any case, or a futures ticker. */
  predicate CommodityLike(symbol: string) { Lower(symbol) in Commodities || EndsWith(symbol, "=F") }

  /** A crypto name in any case, or a USD pair. */
  predicate CryptoLike(symbol: string) { Lower(symbol) in CryptoSymbols || EndsWith(symbol, "-USD") }

  /** `detect_asset_type`: commodity before crypto before ETF; stock otherwise. */
  function DetectAssetType(symbol: string): (t: AssetType)
    ensures t == Commodity <==> CommodityLike(symbol)
    ensures t == Crypto <==> !CommodityLike(symbol) && CryptoLike(symbol)
    ensures t == Etf <==> !CommodityLike(symbol) && !CryptoLike(symbol) && Lower(symbol) in Etfs
    ensures t == Stock <==> !CommodityLike(symbol) && !CryptoLike(symbol) && Lower(symbol) !in Etfs
  {
    if CommodityLike(symbol) then Commodity
    else if CryptoLike(symbol) then Crypto
    else if Lower(symbol) in Etfs then Etf
    else Stock
  }

  /** Every futures ticker is a commodity, whatever its root (so "BTC=F" is
      not crypto). */
  lemma FuturesAreCommodities(root: string)
    ensures DetectAssetType(root + "=F") == Commodity
  {
    var s := root + "=F";
    assert s[|s| - 2..] == "=F";
  }

  /** Every USD pair is crypto, whatever its base. */
  lemma UsdPairsAreCrypto(base: string)
    ensures DetectAssetType(base + "-USD") == Crypto
  {
    var s := base + "-USD";
    assert s[|s| - 4..] == "-USD";
    assert s[|s| - 1] == 'D';
    assert !EndsWith(s, "=F");
    var l := Lower(s);
    assert l[|s| - 4] == '-';
    assert l !in Commodities by {
      assert forall w :: w in Commodities ==> '-' !in w;
      assert '-' in l;
    }
  }

  // ---------------------------------------------------------------------------
  // _extract_decision

  /** `_extract_decision`: the bold LONG marker anywhere wins, then the bold
      SHORT marker; otherwise HOLD. */
  function ExtractDecision(judge: string): (d: string)
    ensures d == "LONG" <==> Contains(judge, "**LONG**")
    ensures d == "SHORT" <==> !Contains(judge, "**LONG**") && Contains(judge, "**SHORT**")
    ensures d == "HOLD" <==> !Contains(judge, "**LONG**") && !Contains(judge, "**SHORT**")
  {
    if Contains(judge, "**LONG**") then "LONG"
    else if Contains(judge, "**SHORT**") then "SHORT"
    else "HOLD"
  }

  /** Precedence is by marker, not by position: a SHORT marker written before
      a LONG marker still gives LONG. */
  lemma MarkerPrecedence(a: string, b: string, c: string)
    ensures ExtractDecision(a + "**SHORT**" + b + "**LONG**" + c) == "LONG"
  {
    var head := a + "**SHORT**" + b;
    var s := head + "**LONG**" + c;
    assert s[|head|..|head| + 8] == "**LONG**";
    ContainsAt(s, "**LONG**", |head|);
  }

  // ---------------------------------------------------------------------------
  // get_eur_usd_rate

  /** Python's `float(x)` on a decoded JSON value; None where it raises.
      Strings go through the abstract `toFloat`. */
  function FloatOf(toFloat: string -> Option<real>, j: Json): (r: Option<real>)
    ensures j.JNum? ==> r == Some(j.n)
    ensures j.JStr? ==> r == toFloat(j.s)
    ensures j.JNull? || j.JArr? || j.JObj? ==> r.None?
  {
    match j
    case JStr(s) => toFloat(s)
    case _ => AsNumber(j)
  }

  /** The rate the search fallback yields: a truthy `"rate"` of the recovered
      dict converted by `float`; None when the call raised, nothing was
      recovered, the rate is missing or falsy, or the conversion raised. */
  function GeminiRate(decode: string -> Option<Json>, toFloat: string -> Option<real>, reply: CallOutcome)
    : (r: Option<real>)
    ensures r.Some? ==> reply.Returned? && ParseJsonResponse(decode, reply.text).Some?
    ensures r.Some? ==> var m := ParseJsonResponse(decode, reply.text).value;
                        "rate" in m && Truthy(m["rate"]) && FloatOf(toFloat, m["rate"]) == r
    ensures reply.Returned? && ParseJsonResponse(decode, reply.text).Some? ==>
              var m := ParseJsonResponse(decode, reply.text).value;
              "rate" in m && Truthy(m["rate"]) ==> r == FloatOf(toFloat, m["rate"])
  {
    match reply
    case Raised(_) => None
    case Returned(t) =>
      match ParseJsonResponse(decode, t)
      case None => None
      case Some(m) => if "rate" in m && Truthy(m["rate"]) then FloatOf(toFloat, m["rate"]) else None
  }

  /** The priority order: the market close, else the search fallback, else 1.0. */
  function EurRate(decode: string -> Option<Json>, toFloat: string -> Option<real>, market: Option<real>,
                   reply: CallOutcome): real
  {
    if market.Some? then market.value else GeminiRate(decode, toFloat, reply).GetOr(1.0)
  }

  /** A recovered numeric rate is used as given, except a zero rate, which is
      falsy and falls through to 1.0. */
  lemma SearchRateUsed(decode: string -> Option<Json>, toFloat: string -> Option<real>, t: string,
                       m: map<string, Json>, x: real)
    requires ParseJsonResponse(decode, t) == Some(m) && "rate" in m && m["rate"] == JNum(x)
    ensures EurRate(decode, toFloat, None, Returned(t)) == if x == 0.0 then 1.0 else x
  {
  }

  /** `get_eur_usd_rate`: `market` is the last close of the EURUSD=X history
      (None when it is empty or the fetch raised); `reply` is how the search
      call ended. */
  method EurUsdRate(decode: string -> Option<Json>, toFloat: string -> Option<real>, market: Option<real>,
                    reply: CallOutcome)
    returns (rate: real)
    ensures rate == EurRate(decode, toFloat, market, reply)
    ensures market.Some? ==> rate == market.value
    ensures market.None? && reply.Raised? ==> rate == 1.0
  {
    if market.Some? {
      return market.value;
    }
    if reply.Returned? {
      var data := ParseJsonResponse(decode, reply.text);
      if data.Some? && "rate" in data.value && Truthy(data.value["rate"]) {
        var converted := FloatOf(toFloat, data.value["rate"]);
        if converted.Some? {
          return converted.value;
        }
      }
    }
    return 1.0;
  }

  /** `current_price / eur_rate`. */
  function PriceEur(price: Json, rate: real): (r: Result<real, PyError>)
    ensures r.Err? <==> AsNumber(price).None? || rate == 0.0
    ensures r.Err? && AsNumber(price).None? ==> r.error == TypeError
    ensures r.Err? && AsNumber(price).Some? ==> r.error == ZeroDivisionError
    ensures r.Ok? ==> r.value * rate == AsNumber(price).value
  {
    match AsNumber(price)
    case None => Err(TypeError)
    case Some(p) => if rate == 0.0 then Err(ZeroDivisionError) else Ok(p / rate)
  }

  // ---------------------------------------------------------------------------
  // data_gatherer

  const NoTechnicalData := "No technical data available."
  const NoNewsData := "No recent news available."
  const NoFundamentalData := "No fundamental data available."

  /** `reply or placeholder`. */
  function OrPlaceholder(reply: string, placeholder: string): (r: string)
    ensures reply != "" ==> r == reply
    ensures reply == "" ==> r == placeholder
  {
    if reply != "" then reply else placeholder
  }

  /** The exception `format(x, ".2f")` (or `".0%"`) raises for a decoded value:
      none for numbers and booleans, ValueError for strings, TypeError for
      everything else. */
  function FormatError(j: Json): (e: Option<PyError>)
    ensures e.None? <==> AsNumber(j).Some?
    ensures e == Some(ValueError) <==> j.JStr?
    ensures e.Some? && !j.JStr? ==> e == Some(TypeError)
  {
    match j
    case JNum(_) => None
    case JBool(_) => None
    case JStr(_) => Some(ValueError)
    case _ => Some(TypeError)
  }

  /** Price, asset name and price source as gathered. */
  datatype PriceInfo = PriceInfo(price: Json, name: Json, source: Json)

  /** The price step of `data_gatherer`: the fields of a recovered dict with
      their defaults, else the scraped price (or 0) with source "extracted". */
  function PriceInfoOf(decode: string -> Option<Json>, symbol: string, reply: string): (r: Result<PriceInfo, PyError>)
    ensures ParseJsonResponse(decode, reply).Some? ==>
              var m := ParseJsonResponse(decode, reply).value;
              r == Ok(PriceInfo(Get(m, "price_usd", JNum(0.0)), Get(m, "asset_name", JStr(symbol)),
                                Get(m, "source", JStr("unknown"))))
    ensures ParseJsonResponse(decode, reply).None? ==>
              (r.Err? <==> ExtractPriceFromText(reply).Err?)
    ensures ParseJsonResponse(decode, reply).None? && r.Ok? ==>
              r.value == PriceInfo(JNum(ExtractPriceFromText(reply).value.GetOr(0.0)), JStr(symbol), JStr("extracted"))
    ensures r.Err? ==> r.error == ValueError
  {
    match ParseJsonResponse(decode, reply)
    case Some(m) =>
      Ok(PriceInfo(Get(m, "price_usd", JNum(0.0)), Get(m, "asset_name", JStr(symbol)), Get(m, "source", JStr("unknown"))))
    case None =>
      match ExtractPriceFromText(reply)
      case Err(e) => Err(e)
      case Ok(v) => Ok(PriceInfo(JNum(v.GetOr(0.0)), JStr(symbol), JStr("extracted")))
  }

  /** What `data_gatherer` returns (the formatted `price_data` line aside). */
  datatype Gathered = Gathered(
    currentPrice: Json,
    assetName: Json,
    assetType: AssetType,
    priceSource: Json,
    technicalData: string,
    newsData: string,
    fundamentalData: string)

  /** `data_gatherer` over the four replies (each "" when the backend returned
      nothing). A price `format` rejects makes it raise. */
  function DataGatherer(decode: string -> Option<Json>, symbol: string, priceReply: string,
                        technicalReply: string, newsReply: string, fundamentalReply: string)
    : (r: Result<Gathered, PyError>)
    ensures r.Err? <==> PriceInfoOf(decode, symbol, priceReply).Err?
                        || FormatError(PriceInfoOf(decode, symbol, priceReply).value.price).Some?
    ensures r.Err? && PriceInfoOf(decode, symbol, priceReply).Ok? ==>
              Some(r.error) == FormatError(PriceInfoOf(decode, symbol, priceReply).value.price)
    ensures r.Ok? ==> AsNumber(r.value.currentPrice).Some?
    ensures r.Ok? ==> var p := PriceInfoOf(decode, symbol, priceReply).value;
                      r.value.currentPrice == p.price && r.value.assetName == p.name && r.value.priceSource == p.source
    ensures r.Ok? ==> r.value.assetType == DetectAssetType(symbol)
    ensures r.Ok? ==> r.value.technicalData == OrPlaceholder(technicalReply, NoTechnicalData)
                      && r.value.newsData == OrPlaceholder(newsReply, NoNewsData)
                      && r.value.fundamentalData == OrPlaceholder(fundamentalReply, NoFundamentalData)
  {
    match PriceInfoOf(decode, symbol, priceReply)
    case Err(e) => Err(e)
    case Ok(p) =>
      match FormatError(p.price)
      case Some(e) => Err(e)
      case None =>
        Ok(Gathered(p.price, p.name, DetectAssetType(symbol), p.source,
                    OrPlaceholder(technicalReply, NoTechnicalData), OrPlaceholder(newsReply, NoNewsData),
                    OrPlaceholder(fundamentalReply, NoFundamentalData)))
  }

  /** `data_gatherer` with its price, technical, news and fundamentals calls
      as outcomes: a call that raises ends it with that exception. The price
      call comes before the price is parsed, the other three after. */
  function GatherCalls(decode: string -> Option<Json>, symbol: string, calls: seq<CallOutcome>)
    : (r: Result<Gathered, PyError>)
    requires |calls| == 4
    ensures calls[0].Raised? ==> r == Err(BackendError)
    ensures calls[0].Returned? && PriceInfoOf(decode, symbol, calls[0].text).Err? ==>
              r == Err(PriceInfoOf(decode, symbol, calls[0].text).error)
    ensures calls[0].Returned? && PriceInfoOf(decode, symbol, calls[0].text).Ok? && SomeRaised(calls) ==>
              r == Err(BackendError)
    ensures !SomeRaised(calls) ==>
              r == DataGatherer(decode, symbol, calls[0].text, calls[1].text, calls[2].text, calls[3].text)
  {
    if calls[0].Raised? then Err(BackendError)
    else
      match PriceInfoOf(decode, symbol, calls[0].text)
      case Err(e) => Err(e)
      case Ok(_) =>
        if SomeRaised(calls) then Err(BackendError)
        else DataGatherer(decode, symbol, calls[0].text, calls[1].text, calls[2].text, calls[3].text)
  }

  /** When every gathering call returns nothing, the price is 0 from source
      "extracted" under the symbol's own name, and every section holds its
      placeholder. */
  lemma GatherNothing(decode: string -> Option<Json>, symbol: string)
    ensures DataGatherer(decode, symbol, "", "", "", "")
            == Ok(Gathered(JNum(0.0), JStr(symbol), DetectAssetType(symbol), JStr("extracted"),
                           NoTechnicalData, NoNewsData, NoFundamentalData))
  {
    assert ExtractPriceFromText("") == Ok(None);
  }

  /** A plain dollar amount the decoder rejects is scraped: the price is the
      amount, the name is the symbol and the source is "extracted". */
  lemma GatherDollarText(decode: string -> Option<Json>, symbol: string, n: nat,
                         technicalReply: string, newsReply: string, fundamentalReply: string)
    requires decode("$" + NatToString(n)).None?
    ensures var r := DataGatherer(decode, symbol, "$" + NatToString(n), technicalReply, newsReply, fundamentalReply);
            r.Ok? && r.value.currentPrice == JNum(n as real) && r.value.assetName == JStr(symbol)
            && r.value.priceSource == JStr("extracted")
  {
    DollarTextNotJson(decode, n);
    PriceOfDollarAmount(n);
    GatherScraped(decode, symbol, "$" + NatToString(n), n as real, technicalReply, newsReply, fundamentalReply);
  }

  /** A price reply with no dict from which a price is scraped gathers that
      price, the symbol as name and the source "extracted". */
  lemma GatherScraped(decode: string -> Option<Json>, symbol: string, priceReply: string, x: real,
                      technicalReply: string, newsReply: string, fundamentalReply: string)
    requires ParseJsonResponse(decode, priceReply).None?
    requires ExtractPriceFromText(priceReply) == Ok(Some(x))
    ensures var r := DataGatherer(decode, symbol, priceReply, technicalReply, newsReply, fundamentalReply);
            r.Ok? && r.value.currentPrice == JNum(x) && r.value.assetName == JStr(symbol)
            && r.value.priceSource == JStr("extracted")
  {
    ScrapedPriceInfo(decode, symbol, priceReply, x);
    GatherOfPriceInfo(decode, symbol, priceReply, PriceInfo(JNum(x), JStr(symbol), JStr("extracted")),
                      technicalReply, newsReply, fundamentalReply);
  }

  /** The price step falls back to the scraped price. */
  lemma ScrapedPriceInfo(decode: string -> Option<Json>, symbol: string, priceReply: string, x: real)
    requires ParseJsonResponse(decode, priceReply).None?
    requires ExtractPriceFromText(priceReply) == Ok(Some(x))
    ensures PriceInfoOf(decode, symbol, priceReply) == Ok(PriceInfo(JNum(x), JStr(symbol), JStr("extracted")))
  {
  }

  /** A numeric price passes the format check and is gathered as found. */
  lemma GatherOfPriceInfo(decode: string -> Option<Json>, symbol: string, priceReply: string, p: PriceInfo,
                          technicalReply: string, newsReply: string, fundamentalReply: string)
    requires PriceInfoOf(decode, symbol, priceReply) == Ok(p)
    requires p.price.JNum?
    ensures var r := DataGatherer(decode, symbol, priceReply, technicalReply, newsReply, fundamentalReply);
            r.Ok? && r.value.currentPrice == p.price && r.value.assetName == p.name
            && r.value.priceSource == p.source
  {
  }

  // ---------------------------------------------------------------------------
  // the debate state and what each role is shown

  /** `UniversalDebateState` with the gathered fields grouped. */
  datatype DebateState = DebateState(
    symbol: string,
    data: Gathered,
    chart: bool,
    bullArguments: string,
    bearArguments: string,
    investmentDebateHistory: string,
    investmentDecision: string,
    riskyArguments: string,
    safeArguments: string,
    neutralArguments: string,
    finalDecision: Json)

  /** The parts of the state a role's prompt interpolates, besides the symbol
      and the gathered data that every prompt shows. */
  datatype Prompt =
    | BullPrompt(counter: Option<string>)
    | BearPrompt(counter: Option<string>)
    | JudgePrompt(history: string)
    | RiskyPrompt(decision: string)
    | SafePrompt(decision: string, risky: string)
    | NeutralPrompt(decision: string, risky: string, safe: string)
    | RiskJudgePrompt(decision: string, history: string, risky: string, safe: string, neutral: string,
                      priceEur: real)

  /** The counter-section: present exactly when the opposing arguments are
      non-empty. */
  function Counter(arguments: string): (c: Option<string>)
    ensures c.Some? <==> arguments != ""
    ensures c.Some? ==> c.value == arguments
  {
    if arguments == "" then None else Some(arguments)
  }

  /** One transcript block, e.g. `"\n\n### BULL (Round 1):\n" + text`. */
  function RoundBlock(role: string, round: nat, text: string): string
  {
    "\n\n### " + role + " (Round " + NatToString(round) + "):\n" + text
  }

  function JudgeBlock(text: string): string
  {
    "\n\n### JUDGE:\n" + text
  }

  /** The transcript after `n` rounds; the bull of round `k` (from 0) spoke
      `replies[2k]` and the bear `replies[2k+1]`. */
  function DebateTranscript(replies: seq<string>, n: nat): string
    requires 2 * n <= |replies|
  {
    if n == 0 then ""
    else DebateTranscript(replies, n - 1) + RoundBlock("BULL", n, replies[2 * n - 2])
         + RoundBlock("BEAR", n, replies[2 * n - 1])
  }

  /** The prompts of the first `n` rounds: the bull is shown the previous
      bear's text, the bear the same round's bull text. */
  function DebatePrompts(replies: seq<string>, n: nat): (ps: seq<Prompt>)
    requires 2 * n <= |replies|
    ensures |ps| == 2 * n
  {
    if n == 0 then []
    else DebatePrompts(replies, n - 1)
         + [BullPrompt(Counter(if n == 1 then "" else replies[2 * n - 3])), BearPrompt(Counter(replies[2 * n - 2]))]
  }

  /** The two-round transcript is BULL 1, BEAR 1, BULL 2, BEAR 2 in that order. */
  lemma TwoRoundTranscript(replies: seq<string>)
    requires |replies| >= 4
    ensures DebateTranscript(replies, 2)
            == RoundBlock("BULL", 1, replies[0]) + RoundBlock("BEAR", 1, replies[1])
               + RoundBlock("BULL", 2, replies[2]) + RoundBlock("BEAR", 2, replies[3])
  {
    TranscriptStep(replies, 1);
    TranscriptStep(replies, 2);
    EmptyThenTwo(DebateTranscript(replies, 0), RoundBlock("BULL", 1, replies[0]), RoundBlock("BEAR", 1, replies[1]));
  }

  lemma EmptyThenTwo(e: string, a: string, b: string)
    requires e == []
    ensures e + a + b == a + b
  {
  }

  lemma TranscriptStep(replies: seq<string>, n: nat)
    requires 0 < n && 2 * n <= |replies|
    ensures DebateTranscript(replies, n)
            == DebateTranscript(replies, n - 1) + RoundBlock("BULL", n, replies[2 * n - 2])
               + RoundBlock("BEAR", n, replies[2 * n - 1])
  {
  }

  /** The first bull gets no counter-section; every later speaker is shown
      the speaker before it when that one said anything. */
  lemma TwoRoundPrompts(replies: seq<string>)
    requires |replies| >= 4
    ensures DebatePrompts(replies, 2)
            == [BullPrompt(None), BearPrompt(Counter(replies[0])), BullPrompt(Counter(replies[1])),
                BearPrompt(Counter(replies[2]))]
  {
  }

  // ---------------------------------------------------------------------------
  // risk_judge

  const DegradedAnalysis := "Error: Could not get valid JSON after 3 attempts."

  /** The record returned when the structured call yields nothing usable. */
  function DegradedRecord(priceUsd: Json, priceEur: real): (d: Json)
    ensures d.JObj? && Truthy(d)
  {
    var m := map[
      "signal" := JStr("IGNORE"),
      "confidence" := JNum(0.0),
      "unable_to_assess" := JBool(true),
      "price_usd" := priceUsd,
      "price_eur" := JNum(priceEur),
      "strategies" := JObj(map[]),
      "support_zones" := JArr([]),
      "resistance_zones" := JArr([]),
      "detailed_analysis" := JStr(DegradedAnalysis),
      "timeframes" := JObj(map["short_term" := JStr("HOLD"), "medium_term" := JStr("HOLD"),
                               "long_term" := JStr("HOLD")])];
    assert "signal" in m;
    JObj(m)
  }

  /** The fallback record's verdict and prices. */
  lemma DegradedRecordFields(priceUsd: Json, priceEur: real)
    ensures var m := DegradedRecord(priceUsd, priceEur).fields;
            Get(m, "signal", JNull) == JStr("IGNORE") && Get(m, "confidence", JNull) == JNum(0.0)
            && Get(m, "unable_to_assess", JNull) == JBool(true)
            && Get(m, "price_usd", JNull) == priceUsd && Get(m, "price_eur", JNull) == JNum(priceEur)
            && Get(m, "detailed_analysis", JNull) == JStr(DegradedAnalysis)
  {
    var m := DegradedRecord(priceUsd, priceEur).fields;
    assert m["signal"] == JStr("IGNORE");
    assert m["confidence"] == JNum(0.0);
    assert m["unable_to_assess"] == JBool(true);
    assert m["price_usd"] == priceUsd;
    assert m["price_eur"] == JNum(priceEur);
    assert m["detailed_analysis"] == JStr(DegradedAnalysis);
  }

  /** The fallback record's empty strategies and zones, and its HOLD timeframes. */
  lemma DegradedRecordParts(priceUsd: Json, priceEur: real)
    ensures var m := DegradedRecord(priceUsd, priceEur).fields;
            Get(m, "strategies", JNull) == JObj(map[])
            && Get(m, "support_zones", JNull) == JArr([]) && Get(m, "resistance_zones", JNull) == JArr([])
            && Get(m, "timeframes", JNull) == JObj(map["short_term" := JStr("HOLD"), "medium_term" := JStr("HOLD"),
                                                      "long_term" := JStr("HOLD")])
  {
    var m := DegradedRecord(priceUsd, priceEur).fields;
    assert m["strategies"] == JObj(map[]);
    assert m["support_zones"] == JArr([]);
    assert m["resistance_zones"] == JArr([]);
  }

  /** The degraded record does not have the schema's shape: its strategies
      dict is empty. */
  lemma DegradedRecordOutsideSchema(priceUsd: Json, priceEur: real)
    ensures DecisionOf(DegradedRecord(priceUsd, priceEur)).None?
  {
    var d := DegradedRecord(priceUsd, priceEur);
    assert "strategies" in d.fields;
    assert StrategiesOf(d.fields["strategies"]).None?;
  }

  /** The value the structured call (`call_gemini_json`, 3 attempts, with the
      schema) returns. */
  function JudgeJson(decode: string -> Option<Json>, replies: seq<Reply>): Option<Json>
    requires |replies| >= 3
  {
    FirstSome(JsonAttempts(decode, true, replies, 3), 0)
  }

  /** What `risk_judge` returns once the EUR price is known: the structured
      result when it is truthy, else the degraded record. */
  function JudgedDecision(decode: string -> Option<Json>, replies: seq<Reply>, priceUsd: Json, priceEur: real)
    : (d: Json)
    requires |replies| >= 3
    ensures JudgeJson(decode, replies).Some? && Truthy(JudgeJson(decode, replies).value) ==>
              d == JudgeJson(decode, replies).value
    ensures JudgeJson(decode, replies).None? || !Truthy(JudgeJson(decode, replies).value) ==>
              d == DegradedRecord(priceUsd, priceEur)
  {
    var result := JudgeJson(decode, replies);
    if result.Some? && Truthy(result.value) then result.value else DegradedRecord(priceUsd, priceEur)
  }

  /** `risk_judge`: the EUR rate, the EUR price, then the structured call over
      `replies`. `asked` is the prompt, None when the division raised first. */
  method RiskJudge(decode: string -> Option<Json>, toFloat: string -> Option<real>, state: DebateState,
                   market: Option<real>, rateReply: CallOutcome, replies: seq<Reply>)
    returns (r: Result<Json, PyError>, asked: Option<Prompt>)
    requires |replies| >= 3
    ensures var eur := PriceEur(state.data.currentPrice, EurRate(decode, toFloat, market, rateReply));
            && (eur.Err? ==> r == Err(eur.error) && asked.None?)
            && (eur.Ok? ==> r == Ok(JudgedDecision(decode, replies, state.data.currentPrice, eur.value))
                            && asked == Some(RiskJudgePrompt(state.investmentDecision, state.investmentDebateHistory,
                                                             state.riskyArguments, state.safeArguments,
                                                             state.neutralArguments, eur.value)))
  {
    var rate := EurUsdRate(decode, toFloat, market, rateReply);
    var eur := PriceEur(state.data.currentPrice, rate);
    if eur.Err? {
      return Err(eur.error), None;
    }
    asked := Some(RiskJudgePrompt(state.investmentDecision, state.investmentDebateHistory, state.riskyArguments,
                                  state.safeArguments, state.neutralArguments, eur.value));
    var d := JudgeCall(decode, replies, state.data.currentPrice, eur.value);
    r := Ok(d);
  }

  /** The structured call of `risk_judge` and its fallback to the degraded
      record. */
  method JudgeCall(decode: string -> Option<Json>, replies: seq<Reply>, priceUsd: Json, priceEur: real)
    returns (d: Json)
    requires |replies| >= 3
    ensures d == JudgedDecision(decode, replies, priceUsd, priceEur)
  {
    var result, _, calls := CallGeminiJson(decode, replies, 3, true);
    FirstSomeIs(JsonAttempts(decode, true, replies, 3), if result.Some? then calls - 1 else 3);
    assert result == JudgeJson(decode, replies);
    if result.Some? && Truthy(result.value) {
      d := result.value;
    } else {
      d := DegradedRecord(priceUsd, priceEur);
    }
  }

  // ---------------------------------------------------------------------------
  // run_universal_analysis

  /** The dict `run_universal_analysis` returns; `chart` says whether a chart
      image came with it. */
  datatype AnalysisOutput = AnalysisOutput(tradeDecision: Json, finalTradeDecision: Json, universalMode: bool,
                                           chart: bool)

  /** The two bull/bear rounds of `run_universal_analysis`: each bull reply
      and each bear reply is stored and appended to the transcript. */
  method InvestmentDebate(replies: seq<string>, s0: DebateState) returns (state: DebateState, prompts: seq<Prompt>)
    requires |replies| >= 4 && s0.bullArguments == "" && s0.bearArguments == ""
    ensures state == s0.(bullArguments := replies[2], bearArguments := replies[3],
                         investmentDebateHistory := DebateTranscript(replies, 2))
    ensures prompts == DebatePrompts(replies, 2)
  {
    state := s0;
    prompts := [];
    var history := "";
    for round := 0 to 2
      invariant history == DebateTranscript(replies, round)
      invariant prompts == DebatePrompts(replies, round)
      invariant state == AfterRounds(s0, replies, round)
    {
      var pair;
      ghost var s, h := state, history;
      state, history, pair := DebateRound(replies, round, state, history);
      RoundKeeps(s0, replies, round, h, prompts, s, state, history, pair);
      prompts := prompts + pair;
    }
  }

  /** One round of the debate loop keeps its three invariants. */
  lemma RoundKeeps(s0: DebateState, replies: seq<string>, round: nat, history: string, prompts: seq<Prompt>,
                   s: DebateState, state: DebateState, transcript: string, pair: seq<Prompt>)
    requires 2 * round + 2 <= |replies| && s0.bearArguments == ""
    requires history == DebateTranscript(replies, round) && prompts == DebatePrompts(replies, round)
    requires s == AfterRounds(s0, replies, round)
    requires transcript == history + RoundBlock("BULL", round + 1, replies[2 * round])
                           + RoundBlock("BEAR", round + 1, replies[2 * round + 1])
    requires state == s.(bullArguments := replies[2 * round], bearArguments := replies[2 * round + 1],
                         investmentDebateHistory := transcript)
    requires pair == [BullPrompt(Counter(s.bearArguments)), BearPrompt(Counter(replies[2 * round]))]
    ensures transcript == DebateTranscript(replies, round + 1)
    ensures prompts + pair == DebatePrompts(replies, round + 1)
    ensures state == AfterRounds(s0, replies, round + 1)
  {
    TranscriptNext(replies, round);
    PromptsStep(replies, round + 1);
    AfterNext(s0, s, replies, round);
  }

  lemma TranscriptNext(replies: seq<string>, k: nat)
    requires 2 * k + 2 <= |replies|
    ensures DebateTranscript(replies, k + 1)
            == DebateTranscript(replies, k) + RoundBlock("BULL", k + 1, replies[2 * k])
               + RoundBlock("BEAR", k + 1, replies[2 * k + 1])
  {
    assert 2 * (k + 1) - 2 == 2 * k;
  }

  /** Storing round `k`'s texts and transcript in the state after `k` rounds
      gives the state after `k + 1` rounds. */
  lemma AfterNext(s0: DebateState, s: DebateState, replies: seq<string>, k: nat)
    requires 2 * k + 2 <= |replies| && s == AfterRounds(s0, replies, k)
    ensures s.(bullArguments := replies[2 * k], bearArguments := replies[2 * k + 1],
               investmentDebateHistory := DebateTranscript(replies, k + 1))
            == AfterRounds(s0, replies, k + 1)
  {
    assert 2 * (k + 1) - 2 == 2 * k;
  }

  /** The state after `n` rounds: the last bull and bear texts and the
      transcript so far. */
  function AfterRounds(s0: DebateState, replies: seq<string>, n: nat): DebateState
    requires 2 * n <= |replies|
  {
    if n == 0 then s0
    else s0.(bullArguments := replies[2 * n - 2], bearArguments := replies[2 * n - 1],
             investmentDebateHistory := DebateTranscript(replies, n))
  }

  /** One bull/bear round: the bull is shown the bear's last text, the bear
      this round's bull text; both texts are stored and appended to the
      transcript. */
  method DebateRound(replies: seq<string>, round: nat, s: DebateState, history: string)
    returns (state: DebateState, transcript: string, pair: seq<Prompt>)
    requires 2 * round + 1 < |replies|
    ensures transcript == history + RoundBlock("BULL", round + 1, replies[2 * round])
                         + RoundBlock("BEAR", round + 1, replies[2 * round + 1])
    ensures state == s.(bullArguments := replies[2 * round], bearArguments := replies[2 * round + 1],
                        investmentDebateHistory := transcript)
    ensures pair == [BullPrompt(Counter(s.bearArguments)), BearPrompt(Counter(replies[2 * round]))]
  {
    pair := [BullPrompt(Counter(s.bearArguments))];
    var bull := replies[2 * round];
    state := s.(bullArguments := bull);
    transcript := history + RoundBlock("BULL", round + 1, bull);

    pair := pair + [BearPrompt(Counter(state.bullArguments))];
    var bear := replies[2 * round + 1];
    state := state.(bearArguments := bear);
    transcript := transcript + RoundBlock("BEAR", round + 1, bear);

    state := state.(investmentDebateHistory := transcript);
  }

  lemma PromptsStep(replies: seq<string>, n: nat)
    requires 0 < n && 2 * n <= |replies|
    ensures DebatePrompts(replies, n)
            == DebatePrompts(replies, n - 1)
               + [BullPrompt(Counter(if n == 1 then "" else replies[2 * n - 3])), BearPrompt(Counter(replies[2 * n - 2]))]
  {
  }


  /** The directional judge and the three risk analysts: `replies` are the
      judge's, the risky, the safe and the neutral analyst's texts. The
      decision is set once from the judge's text; safe is shown risky's
      text and neutral both. */
  method RiskDebate(replies: seq<string>, s0: DebateState) returns (state: DebateState, prompts: seq<Prompt>)
    requires |replies| >= 4
    ensures state == s0.(investmentDebateHistory := s0.investmentDebateHistory + JudgeBlock(replies[0]),
                         investmentDecision := ExtractDecision(replies[0]),
                         riskyArguments := replies[1], safeArguments := replies[2], neutralArguments := replies[3])
    ensures var decision := ExtractDecision(replies[0]);
            prompts == [JudgePrompt(s0.investmentDebateHistory), RiskyPrompt(decision),
                        SafePrompt(decision, replies[1]), NeutralPrompt(decision, replies[1], replies[2])]
  {
    state := s0;
    prompts := [JudgePrompt(state.investmentDebateHistory)];
    var judge := replies[0];
    state := state.(investmentDebateHistory := state.investmentDebateHistory + JudgeBlock(judge));
    state := state.(investmentDecision := ExtractDecision(judge));

    prompts := prompts + [RiskyPrompt(state.investmentDecision)];
    state := state.(riskyArguments := replies[1]);
    prompts := prompts + [SafePrompt(state.investmentDecision, state.riskyArguments)];
    state := state.(safeArguments := replies[2]);
    prompts := prompts + [NeutralPrompt(state.investmentDecision, state.riskyArguments, state.safeArguments)];
    state := state.(neutralArguments := replies[3]);
  }

  /** The state `run_universal_analysis` starts the debate from. */
  function InitialState(symbol: string, data: Gathered, chart: bool): DebateState
  {
    DebateState(Upper(symbol), data, chart, "", "", "", "", "", "", "", JObj(map[]))
  }

  /** The state after the investment debate, the judge and the risk debate;
      `replies` are the eight role texts in call order. */
  function DebatedState(s0: DebateState, replies: seq<string>): DebateState
    requires |replies| >= 8
  {
    s0.(bullArguments := replies[2], bearArguments := replies[3],
        investmentDebateHistory := DebateTranscript(replies, 2) + JudgeBlock(replies[4]),
        investmentDecision := ExtractDecision(replies[4]),
        riskyArguments := replies[5], safeArguments := replies[6], neutralArguments := replies[7])
  }

  /** The prompts of the eight role calls, in call order. */
  function RolePrompts(replies: seq<string>): (ps: seq<Prompt>)
    requires |replies| >= 8
    ensures |ps| == 8
  {
    var decision := ExtractDecision(replies[4]);
    DebatePrompts(replies, 2)
    + [JudgePrompt(DebateTranscript(replies, 2)), RiskyPrompt(decision), SafePrompt(decision, replies[5]),
       NeutralPrompt(decision, replies[5], replies[6])]
  }

  /** The risk judge's prompt for a debated state. */
  function RiskJudgePromptOf(s: DebateState, priceEur: real): Prompt
  {
    RiskJudgePrompt(s.investmentDecision, s.investmentDebateHistory, s.riskyArguments, s.safeArguments,
                    s.neutralArguments, priceEur)
  }

  /** The judge speaks once, after exactly two rounds; the decision every risk
      role is shown is the one taken from the judge's text; safe is shown
      risky's text and neutral both. */
  lemma RolePromptsOrder(replies: seq<string>)
    requires |replies| >= 8
    ensures var decision := ExtractDecision(replies[4]);
            RolePrompts(replies)
            == [BullPrompt(None), BearPrompt(Counter(replies[0])), BullPrompt(Counter(replies[1])),
                BearPrompt(Counter(replies[2]))]
               + [JudgePrompt(DebateTranscript(replies, 2)), RiskyPrompt(decision),
                  SafePrompt(decision, replies[5]), NeutralPrompt(decision, replies[5], replies[6])]
  {
    TwoRoundPrompts(replies);
  }

  /** After the debates the transcript is the two rounds followed by exactly
      one judge block, and the decision is the judge's marker. */
  lemma DebatedStateTranscript(s0: DebateState, replies: seq<string>)
    requires |replies| >= 8
    ensures var s := DebatedState(s0, replies);
            s.investmentDebateHistory
            == RoundBlock("BULL", 1, replies[0]) + RoundBlock("BEAR", 1, replies[1])
               + RoundBlock("BULL", 2, replies[2]) + RoundBlock("BEAR", 2, replies[3]) + JudgeBlock(replies[4])
            && s.investmentDecision in {"LONG", "SHORT", "HOLD"}
  {
    TwoRoundTranscript(replies);
  }

  /** `run_universal_analysis`. `gatherCalls` are the outcomes of the price,
      technical, news and fundamentals calls; `roleReplies` are, in call
      order, bull 1, bear 1, bull 2, bear 2, the judge, risky, safe and
      neutral; `chart` says
      whether a chart was generated; `market`, `rateReply` and `judgeReplies`
      feed the risk judge. `prompts` records what each role was shown. */
  method RunUniversalAnalysis(decode: string -> Option<Json>, toFloat: string -> Option<real>, symbol: string,
                              gatherCalls: seq<CallOutcome>, chart: bool, roleReplies: seq<string>,
                              market: Option<real>, rateReply: CallOutcome, judgeReplies: seq<Reply>)
    returns (r: Result<AnalysisOutput, PyError>, state: DebateState, prompts: seq<Prompt>)
    requires |gatherCalls| == 4 && |roleReplies| == 8 && |judgeReplies| >= 3
    ensures var g := GatherCalls(decode, symbol, gatherCalls);
            (g.Err? ==> r == Err(g.error) && prompts == [])
            && (g.Ok? ==>
                  var debated := DebatedState(InitialState(symbol, g.value, chart), roleReplies);
                  var eur := PriceEur(g.value.currentPrice, EurRate(decode, toFloat, market, rateReply));
                  (eur.Err? ==> r == Err(eur.error) && state == debated && prompts == RolePrompts(roleReplies))
                  && (eur.Ok? ==>
                        state == debated.(finalDecision := JudgedDecision(decode, judgeReplies, g.value.currentPrice,
                                                                          eur.value))
                        && prompts == RolePrompts(roleReplies) + [RiskJudgePromptOf(debated, eur.value)]))
    ensures r.Ok? ==> state.finalDecision.JObj?
                      && FormatError(Get(state.finalDecision.fields, "confidence", JNum(0.0))).None?
                      && r.value == AnalysisOutput(state.finalDecision,
                                                   Get(state.finalDecision.fields, "detailed_analysis", JStr("")),
                                                   true, chart)
  {
    prompts := [];
    var g := GatherCalls(decode, symbol, gatherCalls);
    if g.Err? {
      return Err(g.error), InitialState(symbol, Gathered(JNum(0.0), JStr(symbol), Stock, JStr(""), "", "", ""), chart),
             prompts;
    }
    state := InitialState(symbol, g.value, chart);

    var debatePrompts, riskPrompts;
    state, debatePrompts := InvestmentDebate(roleReplies, state);
    state, riskPrompts := RiskDebate(roleReplies[4..], state);
    prompts := debatePrompts + riskPrompts;

    // the risk judge
    var decision, asked := RiskJudge(decode, toFloat, state, market, rateReply, judgeReplies);
    if decision.Err? {
      return Err(decision.error), state, prompts;
    }
    prompts := prompts + [asked.value];
    state := state.(finalDecision := decision.value);

    // the progress lines read `signal` and format `confidence`
    if !decision.value.JObj? {
      return Err(AttributeError), state, prompts;
    }
    var confidenceError := FormatError(Get(decision.value.fields, "confidence", JNum(0.0)));
    if confidenceError.Some? {
      return Err(confidenceError.value), state, prompts;
    }
    r := Ok(AnalysisOutput(decision.value, Get(decision.value.fields, "detailed_analysis", JStr("")), true, chart));
  }
}
