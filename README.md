# trading-crew in Dafny

trading-crew is a Telegram trading assistant. A crew of text-generation
"analysts" debates a stock, commodity or crypto asset: data gathering, two
bull/bear rounds, a directional judge, risky/safe/neutral risk analysts and a
final risk judge. Around that debate the bot recovers structured trade
decisions from free text, retries the backend on rate limits, and applies
deterministic rules. Those rules cover knockout (KO) certificates, portfolio
risk, market hours, watchlists, Reddit and web-search gem scanning, and the
Telegram messages it sends.

This project models that deterministic core in Dafny 4.11, one module per
source file:

| module | source file |
|---|---|
| `GeminiUtils` | scripts/gemini_utils.py |
| `RiskManager` | TradingAgents/tradingagents/agents/managers/risk_manager.py |
| `UniversalAgents` | scripts/universal_agents.py |
| `CommodityAgents` | scripts/commodity_agents.py |
| `PortfolioWorker` | scripts/portfolio_worker.py |
| `RiskCommand` | src/bot/commands/risk.py |
| `UserStates` | src/bot/user_state.py |
| `AlphaVantageCommon` | TradingAgents/tradingagents/dataflows/alpha_vantage_common.py |
| `MarketHours` | src/utils/market_hours.py |
| `Signals` | src/analysis/signals.py |
| `SignalExtractor` | src/analysis/signal_extractor.py |
| `TelegramWorker` | scripts/telegram_worker.py |
| `Compare` | src/bot/commands/compare.py |
| `LongShort` | src/bot/commands/long_short.py |
| `Analyze` | src/bot/commands/analyze.py |
| `PortfolioCommands` | src/bot/commands/portfolio.py |
| `RedditScanner` | src/scanner/reddit_scanner.py |
| `GemFinder` | src/scanner/gem_finder.py |
| `WebSearchScanner` | scripts/web_search_scanner.py |
| `MainBot` | src/main.py |
| `ScheduledAnalysis` | scripts/scheduled_analysis.py |
| `ComparisonWorker` | scripts/comparison_worker.py |
| `Formatters` | src/notifications/formatters.py |
| `InteractiveBot` | src/bot/interactive_bot.py |
| `ChartVision` | scripts/chart_vision.py |
| `GemsWorker` | scripts/gems_worker.py |

Shared modules hold what several files use:
- `Wrappers` holds `Option` and `Result`.
- `JsonValue` holds decoded JSON values with Python truthiness and `dict.get`.
- `Text` holds Python `str` operations: `strip`, `find`, `split`, `join`, `replace`, case mapping and the regex character classes.
- `Dicts` holds insertion-ordered dictionaries as association lists.
- `Sorting` holds the stable `sorted(..., reverse=True)`.
- `Calendar` holds proleptic Gregorian day numbers and weekdays.

Code that computes values is modelled as functions. Code that updates
variables in loops is modelled as methods proved against those functions:
the retry loops, the aggregation and ranking loops, the chunk splitter and
the indicator arrays. Objects that change their fields are modelled as
classes: `DailySummary`, `UserStateManager`, `AlphaVantageKeyRotator` and
`PortfolioCommand`.

Several things are inputs rather than behaviour:
- the text-generation backend, Telegram, yfinance, Reddit, Finnhub and the HTTP APIs;
- Python's `json.loads` and `float()`;
- the clock.

A backend conversation is the sequence of its replies. A wait is a recorded
number of seconds.

## Model

| member | source | states |
|---|---|---|
| GeminiUtils.ZonesRoundTrip | scripts/gemini_utils.py:25-28 | a list of support/resistance zones serialised to JSON objects reads back as the same list |
| GeminiUtils.StrategiesRoundTrip | scripts/gemini_utils.py:31-42 | the three knockout strategies serialised to JSON read back unchanged |
| GeminiUtils.DecisionRoundTrip | scripts/gemini_utils.py:52-63 | a `TradeDecisionSchema` record serialised to a JSON dict validates back to the same record |
| GeminiUtils.DecisionDefaultsAssessable | scripts/gemini_utils.py:56 | a dict without `unable_to_assess` validates with that field defaulting to false and every other field kept |
| GeminiUtils.DropJsonTag | scripts/gemini_utils.py:96-97 | the result is the text unchanged, or the text after one leading `json` tag |
| GeminiUtils.StripWithoutBackticks | scripts/gemini_utils.py:85-100 | text without a backtick comes back only whitespace-trimmed |
| GeminiUtils.StripFencedSection | scripts/gemini_utils.py:87-98 | when the trimmed text opens a fence, the result is the trimmed first fenced section with one leading `json` removed, and it holds no fence |
| GeminiUtils.FenceRoundTrip | scripts/gemini_utils.py:87-98 | a "```json" block around any fence-free body comes back as the trimmed body |
| GeminiUtils.StripFenceExample | tests/test_gemini_utils.py:23-38 | the fenced `{"test": 1}` example strips to `{"test": 1}` |
| GeminiUtils.TryParseDict | scripts/gemini_utils.py:116-122 | present exactly when the text decodes to a dict, and then it is that dict |
| GeminiUtils.BraceSpan | scripts/gemini_utils.py:131-136 | absent iff no `}` follows a `{`; otherwise the slice from the first `{` to the last `}`, starting with `{` and ending with `}` |
| GeminiUtils.ParseJsonResponse | scripts/gemini_utils.py:103-139 | None for empty input; only non-empty dicts are returned; the stripped text wins when it decodes to one, else the brace span; None when neither does |
| GeminiUtils.PriceGroup | scripts/gemini_utils.py:154-157 | no match iff the text has no digit or comma; a match's integer part holds only digits and commas and its fraction only digits |
| GeminiUtils.DecimalOf | scripts/gemini_utils.py:158-159 | `float` of the digit strings: rejected exactly when both parts are empty, otherwise a non-negative exact decimal |
| GeminiUtils.ExtractPriceFromText | scripts/gemini_utils.py:142-160 | Ok(None) iff there is no digit or comma; ValueError iff the leftmost group has no digit; otherwise the decimal value of the comma-free group |
| GeminiUtils.PriceOfDollarAmount | scripts/gemini_utils.py:154-160 | "$" followed by a whole number is scraped back as exactly that number |
| GeminiUtils.PriceExampleThousands | tests/test_gemini_utils.py:69-95 | "$1,234.56" gives 1234.56 |
| GeminiUtils.PriceExampleCommaOnly | scripts/gemini_utils.py:157-159 | a comma before every digit ("Price: , 5") makes `float('')` raise ValueError |
| GeminiUtils.LanguageInstruction | scripts/gemini_utils.py:386-399 | "<prefix> entirely in German." for "de", the English sentence for any other code |
| GeminiUtils.LanguageInstructionDistinguishes | scripts/gemini_utils.py:397-399 | the instruction ends in "German." exactly when the code is "de" |
| GeminiUtils.CallGemini | scripts/gemini_utils.py:196-220 | at most `max_retries` calls; every call before the last was unanswered; the outcome is the last call's (text, re-raised error, or ""); the waits are retry_delay·(attempt+1) after a 429 and 2 s otherwise |
| GeminiUtils.JsonAttempt | scripts/gemini_utils.py:340-370 | a backend error or empty reply yields nothing; without a schema only a non-empty dict counts |
| GeminiUtils.JsonAttempts | scripts/gemini_utils.py:340-383 | one attempt value per backend call, in order |
| GeminiUtils.JsonPausesBound | scripts/gemini_utils.py:372-381 | at most one pause per attempt, each between 2 and 5·n seconds |
| GeminiUtils.CallGeminiJson | scripts/gemini_utils.py:302-383 | no backend error escapes; the result is the first attempt that yields a value, or None after `max_retries` failures; the pauses follow the 429 / 2 s rule |
| RiskManager.FenceSearch | TradingAgents/tradingagents/agents/managers/risk_manager.py:44-45 | a fenced-pattern capture starts with `{`, ends with `}` and holds no backtick |
| RiskManager.TagSearch | TradingAgents/tradingagents/agents/managers/risk_manager.py:46 | a `<json>` capture starts with `{` and ends with `}` |
| RiskManager.FlatSignalObjectsShape | TradingAgents/tradingagents/agents/managers/risk_manager.py:60 | every `findall` match is a brace-free `{…}` object mentioning `"signal"` |
| RiskManager.FirstDecoded | TradingAgents/tradingagents/agents/managers/risk_manager.py:49-55 | None iff no capture decodes; otherwise the decoding of the first capture that decodes, earlier ones being absent or undecodable |
| RiskManager.ParseTradeDecisionJson | TradingAgents/tradingagents/agents/managers/risk_manager.py:36-66 | the patterns are tried in order and the first decodable capture wins; failing all three, the last flat `"signal"` object is decoded |
| RiskManager.LastResortFindsFlatObject | TradingAgents/tradingagents/agents/managers/risk_manager.py:58-62 | a flat `"signal"` object after plain text is the last `findall` match |
| RiskManager.PlainTextFlatObject | TradingAgents/tradingagents/agents/managers/risk_manager.py:36-66 | in text without backticks or `<`, a trailing flat `"signal"` object is the decision parsed |
| RiskManager.JsonFenceDecision | TradingAgents/tradingagents/agents/managers/risk_manager.py:43-55 | a decodable object in a ```` ```json ```` fence, with no backtick before the fence, is the decision returned |
| RiskManager.JsonTagDecision | TradingAgents/tradingagents/agents/managers/risk_manager.py:43-55 | in text without backticks, a decodable object between `<json>` and `</json>`, with no `<` before the tag, is the decision returned |
| RiskManager.NoBraceNoDecision | TradingAgents/tradingagents/agents/managers/risk_manager.py:36-66 | text without `{` yields None: no pattern matches and no flat object is found |
| RiskManager.JoinPieces | TradingAgents/tradingagents/agents/managers/risk_manager.py:258 | `"\n".join` raises TypeError exactly when some piece is not a string |
| RiskManager.NormaliseContent | TradingAgents/tradingagents/agents/managers/risk_manager.py:246-260 | a string reply is kept; a block list becomes one piece per block joined by newlines, and succeeds when every block is a text block |
| RiskManager.JudgedState | TradingAgents/tradingagents/agents/managers/risk_manager.py:331-342 | the new debate state carries the judge's text and speaker "Judge" and copies every other field |
| RiskManager.RiskManagerNode | TradingAgents/tradingagents/agents/managers/risk_manager.py:244-350 | the focused retry happens exactly when the first reply does not parse; a second failure raises ValueError, or TypeError when the retry content is a dict (its message slices the raw content); otherwise the decision, judge text and updated state are returned |
| UniversalAgents.DetectAssetType | scripts/universal_agents.py:75-88 | commodity (known name or `=F` suffix) before crypto (known name or `-USD` suffix) before ETF; stock otherwise, each case stated as an iff |
| UniversalAgents.FuturesAreCommodities | scripts/universal_agents.py:79-80 | every `…=F` ticker is a commodity, whatever its root |
| UniversalAgents.UsdPairsAreCrypto | scripts/universal_agents.py:79-84 | every `…-USD` pair is crypto |
| UniversalAgents.ExtractDecision | scripts/universal_agents.py:745-751 | LONG iff the text holds `**LONG**`; SHORT iff it holds `**SHORT**` but not `**LONG**`; HOLD otherwise |
| UniversalAgents.MarkerPrecedence | scripts/universal_agents.py:745-751 | precedence is by marker, not position: a SHORT marker before a LONG marker still gives LONG |
| UniversalAgents.FloatOf | scripts/universal_agents.py:122 | `float()` of a decoded value: numbers as is, strings through the string conversion, other values raise |
| UniversalAgents.GeminiRate | scripts/universal_agents.py:117-124 | a search rate exists exactly when the call returned a reply that parses to a dict with a truthy `rate` that `float` accepts, and it is that rate converted |
| UniversalAgents.SearchRateUsed | scripts/universal_agents.py:121-130 | a recovered numeric rate is used as is, except 0, which is falsy and falls through to 1.0 |
| UniversalAgents.EurUsdRate | scripts/universal_agents.py:95-130 | the market close when there is one; else the search rate; 1.0 when the search raised |
| UniversalAgents.PriceEur | scripts/universal_agents.py:571 | TypeError for a non-numeric price, ZeroDivisionError for a zero rate, otherwise the quotient (result × rate = price) |
| UniversalAgents.OrPlaceholder | scripts/universal_agents.py:180 | `reply or placeholder`: the reply when non-empty, else the placeholder |
| UniversalAgents.FormatError | scripts/universal_agents.py:241 | `format(x, ".2f")` succeeds exactly on numbers; ValueError for strings, TypeError for other values |
| UniversalAgents.PriceInfoOf | scripts/universal_agents.py:150-162 | a parsed dict gives its fields with the defaults 0 / symbol / "unknown"; otherwise the scraped price (or 0) with source "extracted", failing only when scraping raises |
| UniversalAgents.DataGatherer | scripts/universal_agents.py:137-245 | when every call returns: fails exactly when the price step raises or the price cannot be formatted; otherwise the price fields, the asset type and each section or its placeholder |
| UniversalAgents.GatherCalls | scripts/universal_agents.py:150-234 | a raising price call raises before the price is parsed, a price that cannot be parsed raises its own error, and a later raising call then raises; when no call raises, the result is `DataGatherer` over the returned texts |
| UniversalAgents.GatherNothing | scripts/universal_agents.py:150-162 | when every call returns nothing, the price is 0 from source "extracted" under the symbol's name, with every placeholder |
| UniversalAgents.GatherDollarText | scripts/universal_agents.py:158-162 | a plain dollar amount that does not decode is scraped: price = amount, name = symbol, source "extracted" |
| UniversalAgents.Counter | scripts/universal_agents.py:256-258 | the counter-section is present exactly when the opposing arguments are non-empty, and then holds them |
| UniversalAgents.DebatePrompts | scripts/universal_agents.py:825-838 | two prompts per round |
| UniversalAgents.TwoRoundTranscript | scripts/universal_agents.py:825-838 | the transcript is BULL 1, BEAR 1, BULL 2, BEAR 2 in that order |
| UniversalAgents.TwoRoundPrompts | scripts/universal_agents.py:825-838 | the first bull sees no counter-section; every later speaker sees the previous speaker's text |
| UniversalAgents.DegradedRecord | scripts/universal_agents.py:731-742 | the fallback record is a non-empty dict, so it is truthy |
| UniversalAgents.DegradedRecordFields | scripts/universal_agents.py:731-742 | the fallback record holds signal IGNORE, confidence 0, unable_to_assess true, the USD and EUR prices and the error text as analysis |
| UniversalAgents.DegradedRecordParts | scripts/universal_agents.py:731-742 | the fallback record holds empty strategies and zones and HOLD for every timeframe |
| UniversalAgents.DegradedRecordOutsideSchema | scripts/universal_agents.py:731-742 | the fallback record does not validate as a `TradeDecisionSchema` (its strategies dict is empty) |
| UniversalAgents.JudgedDecision | scripts/universal_agents.py:717-742 | the structured result when it is truthy, else the fallback record |
| UniversalAgents.RiskJudge | scripts/universal_agents.py:566-742 | the EUR conversion's error propagates before any prompt is sent; otherwise the judged decision over the structured-call replies |
| UniversalAgents.JudgeCall | scripts/universal_agents.py:719-742 | the structured call with three attempts gives the judged decision: its truthy result, else the degraded IGNORE record |
| UniversalAgents.InvestmentDebate | scripts/universal_agents.py:825-838 | after two rounds the state holds the last bull and bear texts and the four-block transcript; the prompts are the debate prompts |
| UniversalAgents.RiskDebate | scripts/universal_agents.py:840-859 | the judge block is appended, the decision taken from it, and the three risk analysts' texts stored; each analyst sees the earlier ones |
| UniversalAgents.RolePrompts | scripts/universal_agents.py:825-859 | eight role prompts, in call order |
| UniversalAgents.RolePromptsOrder | scripts/universal_agents.py:825-859 | the judge speaks once after two rounds; every risk role sees the judge's decision; safe sees risky, neutral sees both |
| UniversalAgents.DebatedStateTranscript | scripts/universal_agents.py:825-846 | the transcript is the two rounds followed by exactly one judge block, and the decision is LONG, SHORT or HOLD |
| UniversalAgents.RunUniversalAnalysis | scripts/universal_agents.py:758-878 | the gathering error, including a raising gathering call, propagates; otherwise the debates run in order and the risk judge's result or error is returned with the final state |
| CommodityAgents.PriceText | scripts/commodity_agents.py:133-138 | unfenced replies are only trimmed; a reply opening with a fence becomes its trimmed first fenced section without the `json` tag |
| CommodityAgents.TrailingFenceKept | scripts/commodity_agents.py:133-138 | a reply that only closes a fence keeps the closing backticks in the price step (unlike the shared fence stripper) |
| CommodityAgents.CommodityPrice | scripts/commodity_agents.py:131-146 | a decoded dict gives `price_usd` (default 0) and `source` (default "unknown"); a decoded non-dict raises AttributeError; undecodable text falls back to the scraped price with source "extracted" |
| CommodityAgents.FencedSpotPrice | scripts/commodity_agents.py:131-141 | a fenced JSON price reply gives its price and source |
| CommodityAgents.ScrapedSpotPrice | scripts/commodity_agents.py:142-146 | a plain dollar amount is scraped as the price with source "extracted" |
| CommodityAgents.GatherCommodityData | scripts/commodity_agents.py:114-213 | when every call returns: fails exactly when the price step fails; otherwise the price, source and the four section replies |
| CommodityAgents.GatherCommodityCalls | scripts/commodity_agents.py:128-204 | a raising price call raises before the price is parsed, a price that cannot be parsed raises its own error, and a later raising call then raises; when no call raises, the result is `GatherCommodityData` over the returned texts |
| CommodityAgents.DebateViews | scripts/commodity_agents.py:675-690 | two views per debate round |
| CommodityAgents.RiskHistoryOrder | scripts/commodity_agents.py:716-725 | the risk history holds the risky, safe and neutral texts in that order, each after its header |
| CommodityAgents.ParseFailureRecord | scripts/commodity_agents.py:598-610 | the error record: signal IGNORE, confidence 0, unable_to_assess true, both prices, empty strategies and zones, without timeframes or hold_alternative |
| CommodityAgents.ParseFailureOutsideSchema | scripts/commodity_agents.py:598-610 | the error record does not validate as a `TradeDecisionSchema` |
| CommodityAgents.CommodityJudgeDecision | scripts/commodity_agents.py:584-610 | the decoded stripped reply when it decodes, else the error record |
| CommodityAgents.FencedJudgeReply | scripts/commodity_agents.py:586-597 | a fenced JSON judge reply decodes to its body |
| CommodityAgents.CommodityNames | scripts/commodity_agents.py:635-651 | the display name is the capitalised symbol and the symbol field is its upper-cased form |
| CommodityAgents.InvestmentRounds | scripts/commodity_agents.py:674-690 | after two rounds the state holds the last bull and bear texts and the four-block transcript |
| CommodityAgents.RiskRounds | scripts/commodity_agents.py:695-725 | the judge block is appended, the decision taken from its markers, the three analysts' texts and the risk history stored |
| CommodityAgents.CommodityViews | scripts/commodity_agents.py:674-725 | eight role views, in call order |
| CommodityAgents.CommodityTranscript | scripts/commodity_agents.py:674-703 | the transcript is the two rounds then one judge block, and the decision is LONG, SHORT or HOLD |
| CommodityAgents.CommodityViewsOrder | scripts/commodity_agents.py:674-725 | each role sees the texts before it: bull then bear per round, the judge the transcript, each risk analyst the decision and the earlier analysts |
| CommodityAgents.RunCommodityAnalysis | scripts/commodity_agents.py:617-744 | a gathering error (including a raising gathering call) or an unformattable price propagates; otherwise the debates run in order and the judge's decision is returned with the final state |
| PortfolioWorker.PerformanceOf | scripts/portfolio_worker.py:93-97 | a `NEG` field is the negated number after the prefix; any other field is converted as is |
| PortfolioWorker.OptionalFields | scripts/portfolio_worker.py:83-100 | USD and no performance with five fields; a currency sixth field sets the currency; otherwise the sixth is the performance and a currency seventh field sets the currency; the currency is always USD or EUR |
| PortfolioWorker.ParsePosition | scripts/portfolio_worker.py:47-114 | None for fewer than five fields; otherwise a position exactly when the direction is LONG/SHORT/NORMAL and the three numbers and the optional fields convert, with those values and an empty symbol |
| PortfolioWorker.JoinDashSeparated | scripts/portfolio_worker.py:64-65 | fields without dashes joined by `-` form a dash-separated text |
| PortfolioWorker.ReplaceDoubleDash | scripts/portfolio_worker.py:64 | in dash-separated text followed by `--` and a dash-free tail, `--` becomes `-NEG` once |
| PortfolioWorker.PlainFields | scripts/portfolio_worker.py:64-65 | dash-free fields joined by `-` split back into the same fields |
| PortfolioWorker.NegatedFields | scripts/portfolio_worker.py:64-65 | a `--` before the performance splits into the fields followed by `NEG` + performance |
| PortfolioWorker.NegativePerformance | scripts/portfolio_worker.py:47-114 | `NAME-DIR-V-F-KO--P` parses with performance −P and currency USD |
| PortfolioWorker.CurrencyInSixthField | scripts/portfolio_worker.py:87-91 | a currency sixth field parses as the currency with no performance |
| PortfolioWorker.KoProximity | scripts/portfolio_worker.py:117-132 | 100 without a knockout level or price, or for NORMAL; LONG: (price − KO)/price·100; SHORT: (KO − price)/price·100 |
| PortfolioWorker.KoProximitySign | scripts/portfolio_worker.py:117-132 | a LONG distance is below 100 and non-positive exactly when the price is at or below the KO; a SHORT distance is non-positive exactly when the price is at or above it |
| PortfolioWorker.KoProximityExample | scripts/portfolio_worker.py:117-132 | price 82 and KO 80 for LONG give 100/41 percent |
| PortfolioWorker.OriginalInvestment | scripts/portfolio_worker.py:135-149 | None without a performance or at −100 %; otherwise the value that grows by the performance to the current value |
| PortfolioWorker.OriginalInvestmentGrows | scripts/portfolio_worker.py:135-149 | for a positive value the original is positive, below the value after a gain and above it after a loss |
| PortfolioWorker.OriginalInvestmentExample | scripts/portfolio_worker.py:141 | 956 at +49.40 % gives 956 / 1.494 |
| PortfolioWorker.KoStatusOf | scripts/portfolio_worker.py:296-302 | critical below 5, warning below 10, caution below 15, safe otherwise, each as an iff |
| PortfolioWorker.KoStatusMonotone | scripts/portfolio_worker.py:296-302 | a larger distance never gives a more severe status |
| PortfolioWorker.SelectedPrice | scripts/portfolio_worker.py:536-547 | 0 without a successful analysis; otherwise the trade's `price_eur` for EUR positions and `price_usd` otherwise, defaulting to 0 |
| PortfolioWorker.ProximityOf | scripts/portfolio_worker.py:117-130 | 100 when the KO is not positive; a non-numeric price raises TypeError; otherwise the KO distance |
| PortfolioWorker.FailedAnalysisIsSafe | scripts/portfolio_worker.py:536-556 | a position without a successful analysis gets distance 100 and status safe |
| PortfolioWorker.BuildReports | scripts/portfolio_worker.py:533-556 | succeeds exactly when every position's report does, then one report per position in order; the only error is TypeError |
| PortfolioWorker.RemoveFirst | scripts/portfolio_worker.py:597 | `list.remove` drops one occurrence: one element shorter, same multiset less that element |
| PortfolioWorker.ValidPositions | scripts/portfolio_worker.py:613-618 | at most one position per argument, each with a valid direction and currency |
| PortfolioWorker.Resolved | scripts/portfolio_worker.py:630-632 | one position per input, each with its symbol resolved from its display name |
| PortfolioWorker.CollectPositions | scripts/portfolio_worker.py:613-618 | the loop keeps exactly the arguments that parse, in order |
| PortfolioWorker.ResolveSymbols | scripts/portfolio_worker.py:630-632 | the loop resolves every position's symbol |
| PortfolioWorker.LangOf | scripts/portfolio_worker.py:579-582 | "de" or "en": the lower-cased setting when it is one of them, else "de" |
| PortfolioWorker.PortfolioMain | scripts/portfolio_worker.py:574-636 | missing user or chat id stops with status 1; otherwise the subcommand chosen from the words of the arguments |
| PortfolioWorker.Dispatch | scripts/portfolio_worker.py:600-636 | show (also for no arguments), clear, remove with an argument, update, else analysis of the valid positions or "no valid positions" |
| PortfolioWorker.AnalysedPositionsValid | scripts/portfolio_worker.py:594-636 | an analysis runs on a non-empty list of valid, resolved positions, and saves unless `--nosave` was given |
| MainBot.TargetDays | src/main.py:60-64 | the current day alone when no days are requested; otherwise exactly the requested days lower-cased, in order |
| MainBot.LoadConfig | src/main.py:40-78 | the nested category/stock loops produce exactly the flattened, day-filtered watchlist, each stock tagged with its category |
| MainBot.LoadConfigSound | src/main.py:66-76 | every loaded stock comes from its category's list and, when filtering, has no day or a target day |
| MainBot.LoadConfigComplete | src/main.py:66-76 | every stock without a day, or with a target day, or any stock when not filtering, is loaded |
| MainBot.Section | src/main.py:98 | `settings.get(section, {})` is usable exactly when both levels are dicts; otherwise AttributeError |
| MainBot.CreateTradingAgentsConfig | src/main.py:81-141 | the provider defaults to "mixed"; mixed, anthropic and google choose their model defaults, other providers keep the defaults; the backend URL and round counts have their defaults; the data vendors are fixed |
| MainBot.ConfigDefaults | src/main.py:95-141 | empty settings give mixed mode with Gemini Flash and Claude Opus, the Anthropic URL, 2 debate and 1 risk round |
| MainBot.UnknownProviderKeepsDefaults | src/main.py:101-124 | a provider other than the three named keeps the default models |
| MainBot.MapSignalType | src/main.py:212-219 | a non-string raises AttributeError; BUY/SELL/LONG/SHORT in any case map to their type; anything else is HOLD |
| MainBot.MapSignalTypeRoundTrip | src/main.py:212-219 | each type's own name maps back to it (HOLD for the rest) |
| MainBot.MapSignalTypeIgnoresCase | src/main.py:219 | lower-casing the signal name does not change the mapped type |
| MainBot.Setting | src/main.py:271-274 | a nested setting fails exactly when its section does, and is the default when the key is missing |
| MainBot.TickerGap | src/main.py:401 | `max(ticker_delay, 30)`: at least 30 and at least the delay, and one of the two |
| MainBot.BotDefaults | src/main.py:271-274 | empty settings give minimum confidence 65, ticker delay 5 and a 30 s gap |
| MainBot.RetryStock | src/main.py:333-395 | fewer than three attempts' worth of waits |
| MainBot.TryOnce | src/main.py:338-389 | one pass of the retry loop: a success records the analysis's signal and stops; a rate-limit hit backs off, and the third gives up with the "Rate limit exceeded" error; any other error is recorded and ends the loop; the errors and signal lists change only by what the pass adds |
| MainBot.AnalyzeNext | src/main.py:323-398 | one pass of the stock loop: the stock's retries followed by the pause unless it is the last stock, which advances the run state by exactly that stock and keeps the signal lists partitioned by bucket |
| MainBot.AnalyzeStocks | src/main.py:313-404 | the summary counts every stock, holds exactly the errors, pauses and signals of the per-stock runs in bucket lists, and its top pick is the first buy signal, else the first sell signal, else none |
| MainBot.RetryBackoffs | src/main.py:373-385 | the k-th backoff is 60·(k+1) seconds |
| MainBot.RetryMeaning | src/main.py:338-395 | every waited-on attempt hit the rate limit; a signal is produced iff the final attempt analysed; a non-rate-limit error stops at once and is recorded with the symbol |
| MainBot.RetryBounds | src/main.py:333-395 | at most the backoffs 60 s and 120 s; three rate-limit hits exhaust the retries after both |
| MainBot.RecordSignal | src/main.py:359 | the signal is added to its bucket and nothing else changes |
| MainBot.RecordError | src/main.py:389-394 | the error line is appended and nothing else changes |
| MainBot.AnalyzeStock | src/main.py:324-395 | one stock's retry loop: its waits, its error lines and its signal are those of the retry specification |
| MainBot.WithSymbol | src/main.py:302-304 | exactly the watchlist entries with the requested symbol |
| MainBot.Run | src/main.py:286-416 | a closed market gives no analysis and the "Market is closed today" error; an unknown single symbol gives its error; otherwise every selected stock is processed in order |
| MainBot.AnalyzeAll | src/main.py:322-403 | the loop's signals, errors and waits are those of processing the stocks in order |
| MainBot.BackoffsWellTimed | src/main.py:373-385 | a stock's waits are all backoffs |
| MainBot.RunAccounting | src/main.py:322-395 | each stock yields exactly one signal or one error |
| MainBot.RunGaps | src/main.py:397-403 | one gap between consecutive stocks: none after the last |
| MainBot.RunWaits | src/main.py:373-403 | every wait is a backoff or the ticker gap |
| MainBot.ExitStatus | src/main.py:629-633 | 1 exactly when there were errors and no buy or sell signals |
| MainBot.RunExitStatus | src/main.py:629-633 | status 1 exactly when some stock failed and no signal is bullish or bearish |
| MainBot.ActionableOnly | src/main.py:439-442 | the actionable subsequence is never longer |
| MainBot.Notices | src/main.py:439-446 | one notice per signal |
| MainBot.SendAlerts | src/main.py:439-442 | a notice for each actionable signal, in order, and the count of them |
| MainBot.SendHolds | src/main.py:445-446 | a notice for each HOLD signal, in order |
| MainBot.SendNotifications | src/main.py:419-458 | startup, the actionable buy/sell/alert signals, every hold signal, the optional summary, then completion; the count is the actionable signals |
| MainBot.ActionableOnlyAll | src/analysis/signals.py:57-71 | a list of buy, sell, support and resistance signals passes the actionable filter unchanged, whatever the minimum confidence |
| MainBot.RunAlertsAll | src/main.py:432-442 | every signal in the buy, sell, support and resistance lists is actionable whatever the minimum confidence, so all of them are sent |
| MainBot.MainExitStatus | src/main.py:514-642 | 0, 1 or 130; 130 exactly on an interrupted run; 0 exactly when every check passed and the run ended without errors-only |
| TelegramWorker.StripStripped | scripts/telegram_worker.py:86-90 | stripping a chunk a second time changes nothing |
| TelegramWorker.FlushWellFormed | scripts/telegram_worker.py:85-90 | a closed chunk is at most 4000 characters or a single line, and under the corrected rule it is not empty |
| TelegramWorker.PackInvariant | scripts/telegram_worker.py:80-88 | the greedy packing loop keeps every finished chunk well formed, and the chunk being filled fits or is one line |
| TelegramWorker.ChunksWellFormed | scripts/telegram_worker.py:78-90 | every chunk of a text over 4000 characters is at most 4000 characters or one over-long line, and under the corrected rule none is empty |
| TelegramWorker.ChunksBlankTail | scripts/telegram_worker.py:80-90 | a 3999-character line followed by two newlines fills one chunk, and the two empty lines make a second chunk |
| TelegramWorker.BlankChunkAsWritten | scripts/telegram_worker.py:85-90 | as written, that text is sent as two messages, the second one empty; the corrected rule sends only the first |
| TelegramWorker.SplitMessage | scripts/telegram_worker.py:72-90 | a text of at most 4000 characters is sent as it is; a longer one is split into well-formed chunks in order, none of them empty under the corrected rule |
| TelegramWorker.Posts | scripts/telegram_worker.py:93-109 | each message is posted once with Markdown and, only when that is refused, once more without |
| TelegramWorker.SendMessages | scripts/telegram_worker.py:92-115 | the messages are posted in order, with a pause between consecutive ones, and the result is true exactly when every message got through by one of its two posts |
| TelegramWorker.SendTelegramMessage | scripts/telegram_worker.py:67-115 | a missing bot token raises KeyError before anything is posted; otherwise the chunks of the text split as written are posted in order, each retried without Markdown when refused, and the result is true exactly when each chunk got through |
| TelegramWorker.IsCommodityIgnoresCase | scripts/telegram_worker.py:118-120 | the commodity test ignores case; "GOLD" and "Silver" are commodities |
| TelegramWorker.SignalLabel | scripts/telegram_worker.py:336-342 | LONG, SHORT and IGNORE keep their labels, and any signal other than those and HOLD reads as HOLD |
| TelegramWorker.ConfidenceText | scripts/telegram_worker.py:370-375 | a missing confidence shows a dash; a non-number raises (ValueError for a string, TypeError otherwise); a number shows a bar |
| TelegramWorker.ConfidenceBar | scripts/telegram_worker.py:370-373 | for a confidence in [0, 1] the bar has ten cells, and cell i is filled exactly when the confidence reaches (i+1)/10 |
| TelegramWorker.PriceText | scripts/telegram_worker.py:377-383 | no dollar price shows a dash; the euro price is shown only beside a dollar price; every shown price is a number |
| TelegramWorker.RiskOf | scripts/telegram_worker.py:312 | "low" and "high" map to their labels, a list or dict raises TypeError, and anything else reads as medium |
| TelegramWorker.StrategyLine | scripts/telegram_worker.py:309-313 | a missing strategy gives KO 0, distance 0 and medium risk; the line belongs to its tier |
| TelegramWorker.StrategyLines | scripts/telegram_worker.py:300-314 | three lines, conservative, moderate and aggressive in that order; a value that is not a dict raises AttributeError |
| TelegramWorker.FormatStrategies | scripts/telegram_worker.py:300-314 | the loop builds exactly the three strategy lines |
| TelegramWorker.TradeOf | scripts/telegram_worker.py:319 | a falsy trade decision reads as an empty dict; a result that is not a dict raises AttributeError |
| TelegramWorker.SignalRaw | scripts/telegram_worker.py:324 | a missing signal reads as a dash; a string is upper-cased; any other value raises |
| TelegramWorker.Head | scripts/telegram_worker.py:386-396 | the reply opens with the signal title and the name, and shows the no-assessment warning exactly when the trade says so |
| TelegramWorker.StrategiesSection | scripts/telegram_worker.py:398-401 | the strategies appear exactly for a LONG or SHORT signal with truthy strategies, as a heading and three lines |
| TelegramWorker.AlternativeSection | scripts/telegram_worker.py:403-409 | the alternative appears exactly for a HOLD signal with a truthy alternative; its direction defaults to LONG and decides the rising or falling heading |
| TelegramWorker.ZoneRow | scripts/telegram_worker.py:416-420 | a zone must be a dict, and a missing level reads as 0 |
| TelegramWorker.ZoneRows | scripts/telegram_worker.py:416-420 | one zone line per zone |
| TelegramWorker.ZoneSection | scripts/telegram_worker.py:411-431 | a falsy zone list shows nothing; otherwise the heading and the first four zones at most |
| TelegramWorker.AnalysisSection | scripts/telegram_worker.py:433-442 | the analysis is shown in full up to 2500 characters, else cut to 2500 followed by "..." |
| TelegramWorker.TimeframeSection | scripts/telegram_worker.py:444-462 | three horizon lines, a missing horizon reading as HOLD; a truthy value that is not a dict raises AttributeError |
| TelegramWorker.AnalyzeResult | scripts/telegram_worker.py:317-468 | the reply is the head, strategies, alternative, zones, analysis, timeframes and chart link, each as its section function gives it, and the first section that raises decides the error |
| TelegramWorker.ReplyGates | scripts/telegram_worker.py:398-409 | the strategies and the HOLD alternative never appear together; strategies come with a LONG or SHORT title, the alternative with a HOLD title, and an unknown signal is titled HOLD |
| TelegramWorker.ReplyBounds | scripts/telegram_worker.py:411-466 | the two zone sections take at most ten lines together, and the reply ends with the chart link |
| TelegramWorker.AppendZones | scripts/telegram_worker.py:411-431 | the zone loop appends exactly the zone section |
| TelegramWorker.AppendTimeframes | scripts/telegram_worker.py:455-462 | the timeframe loop appends exactly the timeframes section |
| TelegramWorker.TimeframeRows | scripts/telegram_worker.py:458-462 | the loop gives the heading and then one row per horizon, short, medium and long term in that order |
| TelegramWorker.AppendTail | scripts/telegram_worker.py:411-466 | the sections after the alternative are appended in order, or the first error is returned |
| TelegramWorker.FormatAnalyzeResult | scripts/telegram_worker.py:317-468 | appending section after section yields exactly the reply's lines, or its error |
| Formatters.WholeText | src/notifications/formatters.py:322 | the `:.0f` text is never empty and starts with a minus sign exactly for a negative value (a negative value that rounds to zero prints "-0") |
| Formatters.CalcPct | src/notifications/formatters.py:316-322 | "N/A" for a zero price; otherwise the rounded percentage with "+" exactly for a strictly positive move |
| Formatters.CalcPctSign | src/notifications/formatters.py:316-322 | for a positive price the text starts with "+" exactly when the target is above it and with "-" exactly when it is below |
| Formatters.CalcPctRounding | src/notifications/formatters.py:320-322 | the whole number shown is within one half of the exact percentage |
| Formatters.SentimentLabel | src/notifications/formatters.py:324-335 | each of the five labels is given exactly on its score band |
| Formatters.SentimentMonotone | src/notifications/formatters.py:324-335 | a higher score never gets a lower label |
| Formatters.StopSection | src/notifications/formatters.py:54-59 | only the stop line and its reasoning, cut to 60 characters (80 for HOLD) |
| Formatters.TargetEntry | src/notifications/formatters.py:66-71 | a target gives at most one target line |
| Formatters.TargetEntries | src/notifications/formatters.py:65-71 | no more target lines than targets |
| Formatters.TargetSection | src/notifications/formatters.py:61-71 | at most three target lines, under a blank line and the heading of the variant |
| Formatters.EventSection | src/notifications/formatters.py:73-78 | at most three event lines under a blank line and the heading |
| Formatters.ConditionSection | src/notifications/formatters.py:80-85 | at most three condition lines under a blank line and the variant's heading |
| Formatters.RecommendationSection | src/notifications/formatters.py:87-93 | the recommendation shown is a prefix of it of at most 400 characters |
| Formatters.TradeMessage | src/notifications/formatters.py:39-100 | the message succeeds exactly when its targets do, and is the head, stop, targets, events, conditions, recommendation and time line in that order |
| Formatters.TradeMessageBounds | src/notifications/formatters.py:65-84 | a full message shows at most three targets, three events and three conditions |
| Formatters.TradeMessageCuts | src/notifications/formatters.py:59-92 | the recommendation shown is a prefix of at most 400 characters, and the stop reasoning is at most 60 (80 for HOLD) |
| Formatters.AppendTargets | src/notifications/formatters.py:65-71 | the loop appends exactly the target lines, or fails with the first target's error |
| Formatters.ErrorPersists | src/notifications/formatters.py:65-71 | once a prefix of the targets fails, the whole list fails with the same error |
| Formatters.FormatTradeSignal | src/notifications/formatters.py:39-162 | building the sections in the source's order gives exactly the trade message |
| Formatters.SupportAlertMessage | src/notifications/formatters.py:164-196 | the buy limit is the support or 98% of the price, the stop is 97% of the support or the price, and each level line appears exactly when that level is set |
| Formatters.SupportStopBelowLimit | src/notifications/formatters.py:188-189 | with a positive price and no negative support, the suggested stop is below the buy limit |
| Formatters.ResistanceAlertMessage | src/notifications/formatters.py:198-230 | each level line appears exactly when its level is set, the resistance line before the support line |
| Formatters.NewsAlertMessage | src/notifications/formatters.py:232-255 | the news line appears exactly for a non-empty summary, and the sentiment label is shown |
| Formatters.FormatSignal | src/notifications/formatters.py:16-37 | the alert formatters never fail |
| Formatters.DispatchMatchesBuckets | src/notifications/formatters.py:26-37 | a signal is rendered by the formatter of the summary bucket it is counted in |
| Formatters.LevelEntries | src/notifications/formatters.py:374-390 | one entry per support or resistance alert |
| Formatters.HoldEntries | src/notifications/formatters.py:396-398 | one entry per listed HOLD signal |
| Formatters.ErrorSection | src/notifications/formatters.py:409-411 | the error line appears exactly when there are errors |
| Formatters.SummaryShape | src/notifications/formatters.py:394-411 | the HOLD section counts every HOLD signal but lists at most three, and the error count appears exactly when there are errors |
| Formatters.AppendSection | src/notifications/formatters.py:356-399 | a bucket's section is its count line, its entries and a blank line |
| Formatters.FormatSummary | src/notifications/formatters.py:341-416 | the summary is the date line and the bucket sections, top pick, errors and closing line in order |
| Formatters.FormatErrorSummary | src/notifications/formatters.py:418-436 | the heading, then the first ten errors each cut to 50 characters followed by "...", then the number of the others when there are more than ten |
| InteractiveBot.SymbolRunEnd | src/bot/interactive_bot.py:298 | the end of the longest run of symbol characters (letters, digits, "." and "-") from a position |
| InteractiveBot.Amount | src/bot/interactive_bot.py:298-301 | the amount read from the digits is never negative and equals the exact decimal value of whole part and fraction |
| InteractiveBot.ParseHolding | src/bot/interactive_bot.py:298-302 | a matched argument gives a non-empty symbol and a non-negative amount |
| InteractiveBot.HoldingShape | src/bot/interactive_bot.py:298-300 | a matched argument starts with a run of symbol characters, a colon and a digit, and its key is that run upper-cased |
| InteractiveBot.HoldingRoundTrip | src/bot/interactive_bot.py:298-302 | `SYMBOL:N` followed by anything that does not continue the number parses back to the upper-cased symbol and N |
| InteractiveBot.ParseWholeNumber | src/bot/interactive_bot.py:298-301 | an argument whose digits after the colon are not followed by "." reads as that whole number |
| InteractiveBot.PortfolioErrorSticks | src/bot/interactive_bot.py:297-308 | once an argument is malformed, the later arguments do not change the outcome |
| InteractiveBot.PortfolioAccepted | src/bot/interactive_bot.py:297-308 | the portfolio is accepted exactly when every argument parses |
| InteractiveBot.PortfolioFirstBad | src/bot/interactive_bot.py:303-308 | the reply names the first malformed argument |
| InteractiveBot.PortfolioLastWins | src/bot/interactive_bot.py:300-302 | a symbol given twice keeps its last amount |
| InteractiveBot.PortfolioAbsent | src/bot/interactive_bot.py:296-302 | a symbol no argument names is not in the portfolio |
| InteractiveBot.PortfolioNonEmpty | src/bot/interactive_bot.py:296-310 | an accepted, non-empty argument list gives a non-empty portfolio |
| InteractiveBot.ParsePortfolio | src/bot/interactive_bot.py:296-308 | the argument loop yields exactly the portfolio of the arguments, or the first malformed argument |
| InteractiveBot.HandlePortfolio | src/bot/interactive_bot.py:283-318 | no arguments shows the stored portfolio, a malformed argument is reported, and otherwise the parsed portfolio is stored |
| InteractiveBot.NoPortfolioUnreachable | src/bot/interactive_bot.py:310-315 | the "no valid portfolio" reply can never be given |
| InteractiveBot.BudgetTextFree | src/bot/interactive_bot.py:178 | the budget text holds no euro sign and no comma |
| InteractiveBot.BudgetTextClean | src/bot/interactive_bot.py:178 | a budget without euro sign or comma is read as written |
| InteractiveBot.Analyze | src/bot/interactive_bot.py:161-193 | no arguments gives the usage reply; an unreadable budget is reported with its argument; otherwise the upper-cased symbol with the budget when given |
| InteractiveBot.Knockout | src/bot/interactive_bot.py:210-243 | no arguments gives the usage reply, and the direction is kept |
| InteractiveBot.KnockoutAgreesWithAnalyze | src/bot/interactive_bot.py:174-234 | /long and /short read symbol and budget as /analyze does, except that an unreadable budget is dropped instead of reported |
| InteractiveBot.Compare | src/bot/interactive_bot.py:252-274 | fewer than two arguments gives the usage reply; otherwise the first two symbols upper-cased |
| RiskCommand.Weights | src/bot/commands/risk.py:118-119 | one weight per holding, each weight times the total being the holding's value |
| RiskCommand.WeightsScale | src/bot/commands/risk.py:118-119 | the weights sum, times the total, to the sum of the values |
| RiskCommand.WeightsSumToOne | src/bot/commands/risk.py:118-119 | for a non-zero total the weights sum to exactly 1 |
| RiskCommand.SectorWeightsMeaning | src/bot/commands/risk.py:122-126 | a sector has an entry exactly when some fetched holding is in it, and the entry is the sum of those holdings' weights |
| RiskCommand.ShareWithoutSector | src/bot/commands/risk.py:122-126 | a sector no fetched holding is in gets no weight |
| RiskCommand.SectorWeights | src/bot/commands/risk.py:122-126 | the loop builds exactly the sector-weight dict |
| RiskCommand.MaxWeight | src/bot/commands/risk.py:128 | 0 for no sectors; otherwise the weight of some sector, and no sector weighs more |
| RiskCommand.TopTwo | src/bot/commands/risk.py:132 | two distinct positions: the largest weight and the largest of the rest |
| RiskCommand.Top2IsLargestPair | src/bot/commands/risk.py:132-133 | the top-two sum is reached by two distinct holdings, and no two distinct holdings weigh more together |
| RiskCommand.UniformBeta | src/bot/commands/risk.py:136-139 | when every holding has the same beta, the portfolio beta is that beta times the sum of the weights |
| RiskCommand.UniformPortfolioBeta | src/bot/commands/risk.py:136-139 | with real weights and equal betas, the portfolio beta is that beta |
| RiskCommand.ReturnSymbols | src/bot/commands/risk.py:143 | every symbol taken for correlations was fetched with a return series |
| RiskCommand.Row | src/bot/commands/risk.py:146 | the pairs of one symbol with every later symbol, in order |
| RiskCommand.PairsUpTo | src/bot/commands/risk.py:145-146 | every pair is two symbols, the first before the second |
| RiskCommand.RecordAllSnoc | src/bot/commands/risk.py:145-154 | recording one more pair is one more step of the loop |
| RiskCommand.RecordAllMeaning | src/bot/commands/risk.py:145-154 | a pair key has a correlation exactly when some pair with that key shares more than 20 dates, and it holds that pair's correlation |
| RiskCommand.Correlations | src/bot/commands/risk.py:142-156 | the nested loops build exactly the correlation dict |
| RiskCommand.CorrelateRow | src/bot/commands/risk.py:146-155 | the inner loop for one symbol records the correlations of exactly its pairs with the later symbols, after those already recorded |
| RiskCommand.HighCorrelations | src/bot/commands/risk.py:162 | exactly the correlations above 0.7 |
| RiskCommand.UpcomingEarningsMeaning | src/bot/commands/risk.py:166-178 | an earnings entry is listed exactly when its symbol is held and fetched and its date is 0 to 14 days away |
| RiskCommand.UpcomingEarnings | src/bot/commands/risk.py:166-178 | the loop builds exactly the upcoming-earnings list |
| RiskCommand.RiskScore | src/bot/commands/risk.py:180-210 | the score lies between 50 and 100 and is the summed points capped at 100 |
| RiskCommand.ScoreBounds | src/bot/commands/risk.py:181-210 | the clamped score is always between 50 and 100 |
| RiskCommand.ScoreMonotone | src/bot/commands/risk.py:183-210 | a riskier sector weight, beta, correlation, earnings count or top-two share never lowers the score |
| RiskCommand.RiskLevelOf | src/bot/commands/risk.py:237-248 | the four risk levels fall exactly on their score bands |
| RiskCommand.NeverLowRisk | src/bot/commands/risk.py:237-248 | the "low" level can never be reported, since the score starts at 50 |
| RiskCommand.CalculateRiskMetrics | src/bot/commands/risk.py:111-224 | ZeroDivisionError exactly for a non-empty portfolio of total 0; otherwise exactly the metrics of the portfolio |
| RiskCommand.TwoEqualPositionsInOneSector | src/bot/commands/risk.py:118-210 | two equal positions in one sector put all weight in that sector and in the top two, scoring at least 85 |
| RiskCommand.TwoEqualWeights | src/bot/commands/risk.py:118-119 | two equal positions weigh one half each |
| RiskCommand.TwoInOneSector | src/bot/commands/risk.py:122-126 | two half weights in one sector give that sector weight 1 |
| RiskCommand.SectorRecommendations | src/bot/commands/risk.py:321-326 | exactly one reduce line per sector over the allowed weight |
| RiskCommand.SectorLines | src/bot/commands/risk.py:321-326 | the sector loop yields exactly the reduce lines of `SectorRecommendations`, one per sector over the allowed weight, in dict order |
| RiskCommand.Symbols | src/bot/commands/risk.py:343 | the symbols of the upcoming earnings, in order |
| RiskCommand.GenerateRecommendations | src/bot/commands/risk.py:316-357 | the flagged lines in order, or the "well diversified" line when nothing was flagged |
| RiskCommand.RecommendationsMeaning | src/bot/commands/risk.py:316-357 | never empty; "well diversified" appears alone, exactly when no rule fires; the top-two line appears exactly above 60% |
| RedditScanner.UpperRun | src/scanner/reddit_scanner.py:15 | the length of the run of capital letters from a position: all capitals, and not followed by one |
| RedditScanner.Greedy | src/scanner/reddit_scanner.py:15 | a match found by the backtracking `[A-Z]{1,5}\b` is between 1 and the allowed number of letters long |
| RedditScanner.GreedyInsideRun | src/scanner/reddit_scanner.py:15 | inside a longer run of capitals the pattern finds no word boundary, so it does not match |
| RedditScanner.GreedyIsRun | src/scanner/reddit_scanner.py:15 | the pattern matches exactly a whole run of one to five capitals that ends at a word boundary |
| RedditScanner.RawMatchIsSpan | src/scanner/reddit_scanner.py:120 | a match at a position is a ticker span, and every ticker span starting there is that match |
| RedditScanner.RawTickersSpans | src/scanner/reddit_scanner.py:120 | `findall` returns exactly the words of one to five capitals between word boundaries |
| RedditScanner.RawTickersSound | src/scanner/reddit_scanner.py:120 | every word the plain pattern returns from a position on is a whole word of one to five capitals starting at or after it |
| RedditScanner.RawTickersComplete | src/scanner/reddit_scanner.py:120 | every whole word of one to five capitals starting at or after a position is returned by the plain pattern |
| RedditScanner.DollarTickersSpans | src/scanner/reddit_scanner.py:117 | every `$TICKER` capture is such a word |
| RedditScanner.DollarTickersRedundant | src/scanner/reddit_scanner.py:116-124 | every dollar ticker is also found by the plain pattern, so the dollar search adds no ticker |
| RedditScanner.TickersAreWords | src/scanner/reddit_scanner.py:114-128 | a ticker is extracted exactly when it is a word of two to five capitals of the upper-cased text and is not blacklisted |
| RedditScanner.KeywordsIn | src/scanner/reddit_scanner.py:146-147 | exactly the keywords that occur in the text, at most one count each |
| RedditScanner.ClassifyBands | src/scanner/reddit_scanner.py:149-153 | bullish needs two keywords more than bearish; neutral exactly within one; swapping the counts swaps bullish and bearish |
| RedditScanner.SentimentMeaning | src/scanner/reddit_scanner.py:130-153 | `_analyze_sentiment`: bullish exactly when at least two more bullish than bearish keywords occur in the lower-cased text, bearish in the mirrored case, neutral within one; a text with no keyword is neutral |
| RedditScanner.MojibakeKeywordNeverMatches | src/scanner/reddit_scanner.py:132-135 | as written, the garbled rocket keyword holds a capital 'Ÿ' that lower-casing never leaves, so it never counts |
| RedditScanner.RocketKeywordMatches | src/scanner/reddit_scanner.py:132-135 | with the rocket emoji restored as the keyword, a text holding a rocket counts it |
| RedditScanner.OfTicker | src/scanner/reddit_scanner.py:259-276 | exactly the mentions of one ticker |
| RedditScanner.FirstN | src/scanner/reddit_scanner.py:278-279 | a prefix of at most n items, all of them when there are fewer |
| RedditScanner.DataOfSnoc | src/scanner/reddit_scanner.py:271-279 | recording one more mention is one more step of the first loop |
| RedditScanner.CollectKeys | src/scanner/reddit_scanner.py:259-269 | a ticker has an entry exactly when it is mentioned, and the key order lists each ticker once |
| RedditScanner.CollectData | src/scanner/reddit_scanner.py:259-279 | a ticker's entry aggregates exactly the mentions of that ticker |
| RedditScanner.CollectMentions | src/scanner/reddit_scanner.py:256-279 | the first loop builds exactly the entries of `Collect`: one per mentioned ticker, aggregating that ticker's mentions, keys in order of first mention |
| RedditScanner.KeepCandidates | src/scanner/reddit_scanner.py:281-311 | the second loop keeps exactly the tickers with at least the minimum number of mentions, in key order, each turned into its aggregated candidate |
| RedditScanner.NoMentionsOf | src/scanner/reddit_scanner.py:259-261 | a ticker nobody mentions has no mentions |
| RedditScanner.MajorityMirror | src/scanner/reddit_scanner.py:289-295 | bullish exactly when bullish hints outnumber bearish ones, neutral exactly on a tie, and neutral hints change nothing |
| RedditScanner.CountNeutralPadding | src/scanner/reddit_scanner.py:289 | adding neutral hints leaves the bullish and bearish counts alone |
| RedditScanner.CandidatesMeaning | src/scanner/reddit_scanner.py:283-314 | a candidate is built exactly for each ticker with enough mentions, at most once per ticker |
| RedditScanner.UnsortedMembers | src/scanner/reddit_scanner.py:281-314 | before sorting, exactly one candidate per ticker with enough mentions |
| RedditScanner.CandidateAggregates | src/scanner/reddit_scanner.py:283-314 | a candidate's count, score, comments, subreddits, first three titles, majority sentiment and momentum are those of all its ticker's mentions |
| RedditScanner.AggregateMeaning | src/scanner/reddit_scanner.py:251-319 | every candidate aggregates its ticker's mentions, every ticker with enough mentions is listed exactly once, and the list is sorted by momentum, highest first |
| RedditScanner.AggregateMentions | src/scanner/reddit_scanner.py:251-319 | the two loops and the sort yield exactly the aggregated candidates |
| GemFinder.VolumeSpikeMeaning | src/scanner/gem_finder.py:94-96 | without a usable average the spike is exactly 1.0; with one, it reaches a threshold exactly when today's volume reaches that multiple of the average |
| GemFinder.StockInfoFields | src/scanner/gem_finder.py:83-106 | data exactly when there is a price history and an info dict; the name defaults to the ticker and the sector to "Unknown"; the price is a non-zero `regularMarketPrice`, else `previousClose`, 0 when that key is missing and None exactly when it holds None; the cap is `marketCap`, 0 when missing and None exactly when the key holds None |
| GemFinder.ValidateMeaning | src/scanner/gem_finder.py:123-162 | a candidate raises the TypeError of the price comparison exactly when its data has a None price, and that of the cap comparison exactly when the price is in range and the cap is None; it becomes a gem exactly when its data has a price and a cap that pass both filters; the gem keeps the candidate's Reddit figures and is a penny stock exactly below 5 |
| GemFinder.Validated | src/scanner/gem_finder.py:189-197 | no more gems than candidates |
| GemFinder.ValidatedPrefix | src/scanner/gem_finder.py:189-197 | the gems of a prefix of the candidates are a prefix of the gems of all |
| GemFinder.ValidatedSnoc | src/scanner/gem_finder.py:193-197 | one more candidate adds its gem, if it is accepted |
| GemFinder.Outcomes | src/scanner/gem_finder.py:189-193 | one validation outcome per candidate |
| GemFinder.OutcomeAt | src/scanner/gem_finder.py:189-193 | the k-th outcome is the validation of the k-th candidate with its quote |
| GemFinder.ValidatedGems | src/scanner/gem_finder.py:193-197 | every gem is the gem of one of the outcomes, and has the required spike when one is required |
| GemFinder.RankedMeaning | src/scanner/gem_finder.py:188-203 | at most `limit` gems, best rank first; each comes from a candidate with its ticker and passed the price, cap and spike filters; and a collected gem that was dropped ranks no higher than any gem returned |
| GemFinder.RaisedSome | src/scanner/gem_finder.py:189-193 | a raise of the loop is the error of a candidate the loop reaches before it holds twice `limit` gems, with no raise before it |
| GemFinder.RaisedNone | src/scanner/gem_finder.py:189-193 | without a raise, every candidate the loop reaches validates without error |
| GemFinder.RaisedFrom | src/scanner/gem_finder.py:189-193 | a raise among the first candidates is the raise of the whole loop |
| GemFinder.RaisedStops | src/scanner/gem_finder.py:190-191 | once the loop holds twice `limit` gems without a raise, no later candidate raises |
| GemFinder.RaisedNot | src/scanner/gem_finder.py:189-193 | a reached candidate that validates without error keeps the loop free of raises |
| GemFinder.RaisedAt | src/scanner/gem_finder.py:189-193 | the first reached candidate that raises gives the raise of the whole loop |
| GemFinder.KeptIsAccepted | src/scanner/gem_finder.py:193-197 | one pass of the loop body adds exactly the gem the candidate yields, if any |
| GemFinder.StoppedCollecting | src/scanner/gem_finder.py:189-191 | where the loop stops, at the end or at twice `limit` gems, its gems are the collected ones and nothing after raises |
| GemFinder.CollectGems | src/scanner/gem_finder.py:188-197 | the loop ends with the TypeError of the first reached candidate that raises, or else keeps exactly the first twice-`limit` accepted gems |
| GemFinder.FindGems | src/scanner/gem_finder.py:164-203 | the TypeError of a None price or cap reached by the loop ends the call; otherwise the gems of the aggregated candidates (at least two mentions each), collected, sorted by momentum times one plus the spike, and cut to `limit` |
| GemFinder.CapTextOf | src/scanner/gem_finder.py:234-241 | billions from 1e9, millions from 1e6, the plain figure below |
| GemFinder.CapTextRange | src/scanner/gem_finder.py:234-241 | a billions figure is at least 1, and a millions figure lies in [1, 1000) |
| GemFinder.GemMessageOf | src/scanner/gem_finder.py:259-262 | at most two sample posts, each cut to 80 characters followed by "..." |
| GemFinder.SummaryShape | src/scanner/gem_finder.py:268-298 | `format_gems_summary`: exactly an empty gem list gives the single "no gems" line; otherwise the summary lists at most the first five gems, numbered from 1 in order, between the header and the hint |
| WebSearchScanner.SearchFocus | scripts/web_search_scanner.py:62-74 | the general trending focus exactly for a category other than the five named ones |
| WebSearchScanner.SearchFocusInjective | scripts/web_search_scanner.py:62-74 | each named category has a focus of its own |
| WebSearchScanner.BracketSpan | scripts/web_search_scanner.py:98 | `\[[\s\S]*\]` finds nothing exactly when no "[" has a later "]"; a match runs from the first "[" to the last "]" |
| WebSearchScanner.SearchResults | scripts/web_search_scanner.py:91-107 | candidates are returned only when the bracketed span decodes to a JSON array, and they are its items |
| WebSearchScanner.BracketSpanAt | scripts/web_search_scanner.py:98 | the match is the text from the first "[" to the last "]" |
| WebSearchScanner.BracketSpanSurrounded | scripts/web_search_scanner.py:98 | an array surrounded by text without brackets is found exactly |
| WebSearchScanner.SearchResultsSurrounded | scripts/web_search_scanner.py:96-103 | a reply holding one JSON array between bracket-free texts yields that array's items |
| WebSearchScanner.PriceFallback | scripts/web_search_scanner.py:122 | the price is a non-zero `regularMarketPrice`, else `previousClose`: 0 when that key is missing and None exactly when it holds None |
| WebSearchScanner.AvgVolumeOf | scripts/web_search_scanner.py:125 | the average volume is never zero, since a missing, None or zero one reads as 1 |
| WebSearchScanner.ValidateMeaning | scripts/web_search_scanner.py:109-155 | a stock passes exactly with a price that is neither None nor zero and lies in range, a cap that is neither None nor zero and lies under the maximum, and a volume that does not hold None (which raises in the ratio or in `int`, and is caught); the volume ratio is today's volume over the average, or 1 for a negative average |
| WebSearchScanner.OutcomeCases | scripts/web_search_scanner.py:180-189 | a candidate raises when its ticker cannot be read, is skipped when the ticker is empty or over five characters, and is validated otherwise |
| WebSearchScanner.Outcomes | scripts/web_search_scanner.py:180-196 | one outcome per candidate |
| WebSearchScanner.OutcomeAt | scripts/web_search_scanner.py:180-189 | the k-th outcome is that of the k-th candidate |
| WebSearchScanner.Validated | scripts/web_search_scanner.py:185-192 | no more gems than candidates |
| WebSearchScanner.SliceTo | scripts/web_search_scanner.py:202 | `gems[:limit]` is a prefix of the list, and for a non-negative limit its first `limit` items |
| WebSearchScanner.RunMeaning | scripts/web_search_scanner.py:179-196 | for a positive limit the loop keeps exactly the first twice-`limit` gems; for a non-positive limit at most one |
| WebSearchScanner.RunPositive | scripts/web_search_scanner.py:191-196 | after each candidate the gems kept are the first twice-`limit` gems so far, and the loop has stopped exactly when that many were found |
| WebSearchScanner.RunNonPositive | scripts/web_search_scanner.py:191-196 | with a non-positive limit the first gem stops the loop |
| WebSearchScanner.RunAfterStop | scripts/web_search_scanner.py:195-196 | after the break or an error nothing changes |
| WebSearchScanner.RunNext | scripts/web_search_scanner.py:180-196 | one pass of the running loop: a raise stops it with the error, a skipped ticker changes nothing, and a validated candidate adds its gem, if any, and stops the loop at twice `limit` gems |
| WebSearchScanner.Examine | scripts/web_search_scanner.py:181-189 | the loop body gives exactly the candidate's outcome |
| WebSearchScanner.ExamineAt | scripts/web_search_scanner.py:180-189 | the body on the i-th candidate gives the i-th outcome |
| WebSearchScanner.CollectGems | scripts/web_search_scanner.py:179-196 | the loop ends with exactly the gems (or the error) of the run over all outcomes |
| WebSearchScanner.FindGems | scripts/web_search_scanner.py:157-202 | a raising search call raises; an error is passed on; otherwise the collected gems sorted by volume ratio and cut to `limit` |
| WebSearchScanner.FindGemsMeaning | scripts/web_search_scanner.py:198-202 | at most `limit` gems, by volume ratio highest first, all among the first twice-`limit` validated gems |
| WebSearchScanner.SliceToOrdered | scripts/web_search_scanner.py:202 | a slice of a sorted list is sorted and holds only its gems |
| WebSearchScanner.OutcomeGood | scripts/web_search_scanner.py:131-137 | a validated gem has a usable ticker and passes the price and cap filters |
| WebSearchScanner.ValidatedGood | scripts/web_search_scanner.py:185-192 | every gem kept passes the filters |
| WebSearchScanner.ValidatedGems | scripts/web_search_scanner.py:179-196 | every gem of the candidates passes the price and cap filters |
| WebSearchScanner.SummaryShape | scripts/web_search_scanner.py:226-263 | `format_gems_summary`: exactly an empty gem list gives the single "no gems" line; otherwise the summary lists at most the first seven gems, numbered from 1 in order, between the header and the hint |
| UserStates.ProfileOfMeaning | src/bot/user_state.py:16-21 | a profile name is accepted exactly when it is one of the four values, and names back to itself |
| UserStates.ProfileNameRoundTrip | src/bot/user_state.py:16-21 | every profile reads back from its name |
| UserStates.SettingsOrdered | src/bot/user_state.py:24-56 | a riskier profile never allows less sector concentration, leverage or stop-loss, nor asks a wider knockout buffer; leverage is at least 2 and the concentration in (0, 1] |
| UserStates.NewUser | src/bot/user_state.py:72-81 | a new user has the moderate profile, no portfolio and no alerts |
| UserStates.Scaled | src/bot/user_state.py:93 | one entry per position, keeping its key, with its amount as a percentage of the total |
| UserStates.TotalValueBounds | src/bot/user_state.py:83-86 | `total_portfolio_value` sums the amounts: with no negative amount it is at least every amount, and 0 exactly when every amount is 0 |
| UserStates.Percentages | src/bot/user_state.py:88-93 | empty for a total of 0; otherwise each position's share of the total in percent |
| UserStates.ScaledSum | src/bot/user_state.py:93 | the scaled amounts sum to the percentage of the summed amounts |
| UserStates.PercentagesSumTo100 | src/bot/user_state.py:88-93 | for a non-zero total the percentages sum to exactly 100 |
| UserStates.RiskSettingsOf | src/bot/user_state.py:95-100 | the settings of the user's profile, or the moderate ones for an unknown profile |
| UserStates.StopLossRange | src/bot/user_state.py:95-100 | whatever profile name is stored, known or not, the default stop loss is between 5 and 25 percent |
| UserStates.ToDict | src/bot/user_state.py:102-112 | the dict has all seven fields |
| UserStates.FromDict | src/bot/user_state.py:114-125 | KeyError exactly without a user id; every other missing field takes its default |
| UserStates.FromToDict | src/bot/user_state.py:102-125 | a state read back from its dict is the same state |
| UserStates.ToFromDict | src/bot/user_state.py:102-125 | a complete dict survives being read and written back |
| UserStates.UpperKeysMeaning | src/bot/user_state.py:226 | after upper-casing the keys, each key holds the last amount given for any spelling of it, and every key is upper case |
| UserStates.PutKeys | src/bot/user_state.py:226 | storing a key adds only that entry |
| UserStates.StampedAlert | src/bot/user_state.py:266-267 | the stored alert is active, stamped with the time and marked untriggered, and keeps every other field |
| UserStates.ActiveUsersMeaning | src/bot/user_state.py:282-287 | a user is listed exactly when they are cached and have an alert that has not triggered |
| UserStates.GetUserFrame | src/bot/user_state.py:183-201 | get_user adds only the requested user, leaves every other user alone, and changes a known user's name only when a different one is given |
| UserStates.UserStateManager.constructor | src/bot/user_state.py:135-150 | the manager starts with an empty, consistent cache (loading the JSON file is not modelled) |
| UserStates.UserStateManager.GetUser | src/bot/user_state.py:183-201 | the cache becomes the get-or-create result and the user is appended to the order only when new |
| UserStates.UserStateManager.UpdateUser | src/bot/user_state.py:203-212 | the state is stored under its id with a fresh update time |
| UserStates.UserStateManager.SetPortfolio | src/bot/user_state.py:214-229 | the user's portfolio becomes the given one with upper-cased keys, and only that user changes |
| UserStates.UserStateManager.SetProfile | src/bot/user_state.py:231-252 | ValueError, with nothing changed, exactly for an unknown profile; otherwise the lower-cased profile is stored |
| UserStates.UserStateManager.AddAlert | src/bot/user_state.py:254-271 | the stamped alert is appended, so the user has an active alert |
| UserStates.UserStateManager.RemoveAlert | src/bot/user_state.py:273-280 | an in-range index removes that alert; any other index changes nothing but the get-or-create |
| UserStates.UserStateManager.UsersWithAlerts | src/bot/user_state.py:282-287 | exactly the cached users with an untriggered alert, in cache order |
| Compare.PctChange | src/bot/commands/compare.py:101-103 | undefined exactly for a zero past price; for a positive past price the return is positive exactly when the price rose and zero exactly when it did not move |
| Compare.RatioSign | src/bot/commands/compare.py:101-103 | the sign of `(current / past - 1) * 100` follows the price move |
| Compare.ReturnsOf | src/bot/commands/compare.py:84-103 | ValueError exactly for an empty history; the one-month, three-month and one-year returns against the close 22 and 66 back and the first close, or the current price when the history is too short |
| Compare.ShortHistoryIsFlat | src/bot/commands/compare.py:88-90 | a history of at most 22 closes shows 0% on every horizon |
| Compare.YearReturnSign | src/bot/commands/compare.py:90-103 | with more than 200 closes, the one-year return is positive exactly when the last close is above the first |
| Compare.DecisionSignalReadsHead | src/bot/commands/compare.py:119-123 | only the first 200 characters of the decision count, and their case does not |
| Compare.BuyWins | src/bot/commands/compare.py:122 | a short decision that mentions BUY is a BUY signal, whatever else it says |
| Compare.WinnerOf | src/bot/commands/compare.py:131-140 | the higher score wins, and equal scores are a tie |
| Compare.PointsOfAwards | src/bot/commands/compare.py:204-234 | each side's points are the sum of its shares of the five awards |
| Compare.CalculateScores | src/bot/commands/compare.py:202-236 | the step-by-step additions give exactly the scores of the award table |
| Compare.ScoresTotal | src/bot/commands/compare.py:204-236 | the scores sum to 170 when the P/Es differ and to 150 when they are equal, and each lies in [50, 120] |
| Compare.EqualMetricsFavourSecond | src/bot/commands/compare.py:207-234 | two stocks with the same figures score 50 and 100, so the second wins |
| Compare.ScoresSwap | src/bot/commands/compare.py:207-234 | with no ties on returns or dividend, swapping the stocks swaps the scores |
| Compare.RecommendationPrefersBuy | src/bot/commands/compare.py:246-255 | a buy recommendation is given exactly when either side has BUY, each single-buy line names the side that has it, and otherwise the winner is preferred unless both hold |
| Compare.RecommendationSymmetric | src/bot/commands/compare.py:246-255 | swapping the two stocks swaps the single-buy lines and the winner, and keeps "both hold" |
| AlphaVantageCommon.CleanKeysClean | TradingAgents/tradingagents/dataflows/alpha_vantage_common.py:40 | every key kept is non-empty and stripped |
| AlphaVantageCommon.ParseKeys | TradingAgents/tradingagents/dataflows/alpha_vantage_common.py:37-47 | ValueError exactly when no key is configured (the list has only blank entries, or both variables are empty); the single key is used only without the list; listed keys are stripped, non-empty and comma-free |
| AlphaVantageCommon.SplitKeysCommaFree | TradingAgents/tradingagents/dataflows/alpha_vantage_common.py:40 | no key read from the list holds a comma |
| AlphaVantageCommon.CleanKeysOfClean | TradingAgents/tradingagents/dataflows/alpha_vantage_common.py:40 | cleaning keys that are already clean changes nothing |
| AlphaVantageCommon.KeysRoundTrip | TradingAgents/tradingagents/dataflows/alpha_vantage_common.py:38-40 | clean, comma-free keys joined with commas read back as the same list |
| AlphaVantageCommon.FirstFreeMeaning | TradingAgents/tradingagents/dataflows/alpha_vantage_common.py:59-68 | the first key from the current index on that is not blocked, all keys before it being blocked; none when every key is blocked |
| AlphaVantageCommon.Probe | TradingAgents/tradingagents/dataflows/alpha_vantage_common.py:56-66 | the probe loop skips blocked keys from the current index, at most once per key: it stops at the first free key in rotation order, or after probing all keys, back at the start index |
| AlphaVantageCommon.KeyRotator.constructor | TradingAgents/tradingagents/dataflows/alpha_vantage_common.py:46-51 | index 0, nothing blocked and every request count 0 |
| AlphaVantageCommon.KeyRotator.GetKey | TradingAgents/tradingagents/dataflows/alpha_vantage_common.py:54-80 | the first free key from the current index is used: its block is cleared, its count goes up and the index moves past it; when every key is blocked, AlphaVantageRateLimitError and nothing changes |
| AlphaVantageCommon.KeyRotator.MarkRateLimited | TradingAgents/tradingagents/dataflows/alpha_vantage_common.py:82-86 | the key is blocked until now plus the block time, and nothing else changes |
| AlphaVantageCommon.MarkedKeyBlocked | TradingAgents/tradingagents/dataflows/alpha_vantage_common.py:63-84 | a marked key stays blocked until the block time has passed, and not after |
| AlphaVantageCommon.FreeKeyFound | TradingAgents/tradingagents/dataflows/alpha_vantage_common.py:59-77 | when some key is free, a key is handed out |
| AlphaVantageCommon.ParseDate | TradingAgents/tradingagents/dataflows/alpha_vantage_common.py:123 | a parsed "%Y-%m-%d" date is a valid calendar date at midnight |
| AlphaVantageCommon.DateIsNotDateTime | TradingAgents/tradingagents/dataflows/alpha_vantage_common.py:122-130 | no text parses in both formats, so the second `strptime` is reached only when the first fails |
| AlphaVantageCommon.PaddedDayParses | TradingAgents/tradingagents/dataflows/alpha_vantage_common.py:123 | `%d` accepts a day padded with a space: "YYYY-MM- D" parses as "YYYY-MM-0D" |
| AlphaVantageCommon.FormatPaddedDate | TradingAgents/tradingagents/dataflows/alpha_vantage_common.py:122-124 | "YYYY-MM- D" becomes "YYYYMMDDT0000" with the day zero-padded |
| AlphaVantageCommon.PaddedDayTimeParses | TradingAgents/tradingagents/dataflows/alpha_vantage_common.py:127 | in "YYYY-MM- D HH:MM" the first space pads the day and the time follows the second |
| AlphaVantageCommon.ParseDateTime | TradingAgents/tradingagents/dataflows/alpha_vantage_common.py:127 | a parsed "%Y-%m-%d %H:%M" is a valid date with an hour below 24 and a minute below 60 |
| AlphaVantageCommon.Pad2 | TradingAgents/tradingagents/dataflows/alpha_vantage_common.py:124-128 | two digits that read back as the number |
| AlphaVantageCommon.FormatDatetimeForApi | TradingAgents/tradingagents/dataflows/alpha_vantage_common.py:115-134 | a 13-character text with a "T" is returned as it is; other text converts exactly when one of the two formats parses; a value that is neither text nor datetime, or unparsable text, is a ValueError |
| AlphaVantageCommon.StampShape | TradingAgents/tradingagents/dataflows/alpha_vantage_common.py:124-132 | the stamp of a four-digit year has 13 characters and a "T" |
| AlphaVantageCommon.FormatIdempotent | TradingAgents/tradingagents/dataflows/alpha_vantage_common.py:115-134 | converting an already converted date returns it unchanged, for years from 1000 on |
| AlphaVantageCommon.CanonicalDateParses | TradingAgents/tradingagents/dataflows/alpha_vantage_common.py:123 | a zero-padded "YYYY-MM-DD" parses to its fields |
| AlphaVantageCommon.FormatPlainDate | TradingAgents/tradingagents/dataflows/alpha_vantage_common.py:122-124 | "YYYY-MM-DD" becomes "YYYYMMDDT0000" |
| AlphaVantageCommon.DateAndTimeNotDate | TradingAgents/tradingagents/dataflows/alpha_vantage_common.py:123-127 | a date with a time does not parse as a plain date |
| AlphaVantageCommon.DateAndTimeParses | TradingAgents/tradingagents/dataflows/alpha_vantage_common.py:127 | a zero-padded "YYYY-MM-DD HH:MM" parses to its fields |
| AlphaVantageCommon.FormatDateAndTime | TradingAgents/tradingagents/dataflows/alpha_vantage_common.py:126-128 | "YYYY-MM-DD HH:MM" becomes "YYYYMMDDTHHMM" |
| AlphaVantageCommon.CheckResponse | TradingAgents/tradingagents/dataflows/alpha_vantage_common.py:174-186 | non-JSON text is passed on; the response is a rate limit exactly when it is a dict whose "Information" text mentions "rate limit" or "api key" in any case |
| AlphaVantageCommon.MakeApiRequest | TradingAgents/tradingagents/dataflows/alpha_vantage_common.py:140-188 | a key is taken as get_key does; a rate-limit response blocks that key for 60 minutes and raises; any other response is returned, or raises as Python does |
| LongShort.Last | src/bot/commands/long_short.py:96-106 | `tail(n)`: the last n bars, or all of them when there are fewer |
| LongShort.MinLow | src/bot/commands/long_short.py:96 | the lowest low of the bars, reached by one of them |
| LongShort.MaxHigh | src/bot/commands/long_short.py:97 | the highest high of the bars, reached by one of them |
| LongShort.RangeSumBetween | src/bot/commands/long_short.py:105-106 | bounds on every bar's range bound their sum |
| LongShort.AtrBetween | src/bot/commands/long_short.py:105-106 | the ATR lies between the smallest and largest bar range |
| LongShort.StockDataOf | src/bot/commands/long_short.py:85-119 | ValueError for an empty history; a division error exactly for a zero last close; otherwise the last close as price, with the name and currency falling back to the symbol and "USD" |
| LongShort.StockDataBounds | src/bot/commands/long_short.py:93-107 | for well-formed bars, 0 < support <= price <= resistance and the ATR figures are not negative |
| LongShort.StockDataValue | src/bot/commands/long_short.py:93-119 | the stock data is the last close, the 20-bar low and high, the 14-bar ATR and its percentage of the price |
| LongShort.SupportAroundClose | src/bot/commands/long_short.py:93-97 | the last close lies between the 20-bar low and high |
| LongShort.AtrNonNegative | src/bot/commands/long_short.py:105-106 | the ATR of well-formed bars is not negative |
| LongShort.DirectionOf | src/bot/commands/long_short.py:141-156 | long exactly for "long"; every other direction is treated as short |
| LongShort.DistanceToKo | src/bot/commands/long_short.py:145-160 | a division error exactly for a zero price |
| LongShort.RecommendedLeverage | src/bot/commands/long_short.py:152-167 | OverflowError exactly for a zero distance, whose quotient is infinite for a numpy float; otherwise at most the maximum, at least 2 when the maximum allows it, and one of the maximum, 2 or `int(100 / distance)` |
| LongShort.LeverageCap | src/bot/commands/long_short.py:152-167 | the maximum is recommended exactly when it is 2 or the maximum times the distance is at most 100; from a 50% distance on the leverage is 2 |
| LongShort.LeverageMonotone | src/bot/commands/long_short.py:152-167 | a farther barrier never gets a higher leverage |
| LongShort.KnockoutOf | src/bot/commands/long_short.py:133-170 | the barrier of the direction with the profile's buffer, the profile's maximum leverage and a leverage within it; errors exactly for a zero price or distance |
| LongShort.KnockoutFigures | src/bot/commands/long_short.py:141-170 | the distance is the gap between price and barrier, on the side the certificate loses, as a percentage of the price; the leverage is the one recommended for that distance; the targets lie 5% and 10% from the price in the certificate's favour |
| LongShort.TargetMoves | src/bot/commands/long_short.py:148-164 | the targets are exactly 5% and 10% above the price for a long and below it for a short |
| LongShort.LongBarrier | src/bot/commands/long_short.py:141-152 | for a long, the barrier lies below the support, at least the buffer away, and the leverage lies in [2, max] |
| LongShort.ShortBarrier | src/bot/commands/long_short.py:156-167 | for a short, the barrier lies above the resistance, at least the buffer away, and the leverage lies in [2, max] |
| LongShort.KnockoutForUser | src/bot/commands/long_short.py:85-170 | for any user and a well-formed history the knockout succeeds, the barrier is at least the profile's buffer away, and the leverage lies in [2, max] |
| LongShort.ProfileBounds | src/bot/user_state.py:24-56 | every profile's buffer lies in (0, 100) and its maximum leverage is at least 2 |
| LongShort.SizingOf | src/bot/commands/long_short.py:200-204 | sizing is shown exactly for a non-zero budget |
| LongShort.SizingBounds | src/bot/commands/long_short.py:201-204 | the stake equals the loss at the barrier and is below a positive budget; up to leverage 20 the gain of a 5% move never exceeds the stake |
| LongShort.GatherKeepsPrefix | src/bot/commands/long_short.py:234-238 | the loop keeps a prefix of the sentences, stops only at a sentence that would not fit, and stays within the limit |
| LongShort.KeyPointsShape | src/bot/commands/long_short.py:226-240 | when the first sentence does not fit, the first 400 characters and "..."; otherwise the first sentences that fit, at most four, stripped and within the limit |
| LongShort.ExtractKeyPoints | src/bot/commands/long_short.py:226-240 | the loop gives exactly the key points |
| LongShort.Reasoning | src/bot/commands/long_short.py:173-174 | a falsy decision gives the "no analysis" text; a text gives its key points; any other truthy value raises |
| LongShort.KnockoutReply | src/bot/commands/long_short.py:123-224 | an error of the figures comes first, then one of the reasoning; otherwise the reply shows the knockout, direction label, reasoning, sizing, capitalised profile, support, resistance and price |
| ComparisonWorker.ParseSymbolsMeaning | scripts/comparison_worker.py:141-142 | the symbols are the whitespace-separated words of the text with commas read as spaces: none is empty and none holds whitespace |
| ComparisonWorker.ParseSymbolsRoundTrip | scripts/comparison_worker.py:141-142 | joining non-empty, space- and comma-free symbols with commas and parsing the text gives the same symbols back |
| ComparisonWorker.WordsOfJoin | scripts/comparison_worker.py:142 | joining such symbols with spaces and splitting the text gives them back |
| ComparisonWorker.CheckCount | scripts/comparison_worker.py:155-163 | the analysis goes ahead exactly for 2 to 4 symbols; "too few" exactly below 2 |
| ComparisonWorker.Resolved | scripts/comparison_worker.py:147-153 | one resolved symbol per parsed word, in order |
| ComparisonWorker.IndexOf | scripts/comparison_worker.py:198 | `symbols.index`: the first position holding the symbol (the length stands for a missing one, which raises in Python) |
| ComparisonWorker.ReorderMeaning | scripts/comparison_worker.py:197-198 | the re-sorted results are a permutation of the finished ones, ordered by the position of their symbol in the input |
| ComparisonWorker.ReorderInputOrder | scripts/comparison_worker.py:174-198 | for distinct symbols and one result per symbol, the re-sorted results are in input order whatever order the threads finished in |
| ComparisonWorker.SortedByPosition | scripts/comparison_worker.py:198 | a permutation sorted by input position equals the results in input order |
| ComparisonWorker.SuccessCount | scripts/comparison_worker.py:200-201 | the successful analyses are at most all of them |
| ComparisonWorker.SuccessCountPermutation | scripts/comparison_worker.py:198-202 | re-sorting does not change the number of successes |
| ComparisonWorker.LineOf | scripts/comparison_worker.py:102-119 | each block names its analysis's symbol and is a "failed" block exactly for a failed analysis |
| ComparisonWorker.IndividualLines | scripts/comparison_worker.py:101-119 | one block per result, in order |
| ComparisonWorker.LinesMeaning | scripts/comparison_worker.py:103-106 | a decision without a signal shows "N/A" with the white marker |
| ComparisonWorker.ComparisonMain | scripts/comparison_worker.py:132-221 | fewer than 2 or more than 4 symbols: one refusal and status 1; otherwise the "working" message, then "not enough" and status 1 below two successes, status 1 and nothing more when the comparison call raises, or the comparison of the results in input order, with status 0 exactly when it was sent |
| ComparisonWorker.Conclude | scripts/comparison_worker.py:199-221 | below two successes "not enough" and status 1; a raising comparison call sends nothing more; otherwise one comparison message with one block per result in order, and status 0 exactly when it was sent |
| ComparisonWorker.ReorderSuccesses | scripts/comparison_worker.py:197-202 | re-sorting the finished analyses keeps their number of successes |
| ScheduledAnalysis.Lowered | scripts/scheduled_analysis.py:47 | every target day lower-cased, in order |
| ScheduledAnalysis.TargetDays | scripts/scheduled_analysis.py:46-47 | today lower-cased when no days are given; otherwise exactly the given days lower-cased, in order |
| ScheduledAnalysis.SelectedMeaning | scripts/scheduled_analysis.py:52-57 | a stock is selected exactly when it has no day or its lower-cased day is a target; a demo stock only when "demo" is a target |
| ScheduledAnalysis.LoadWatchlist | scripts/scheduled_analysis.py:33-61 | the nested loop gives exactly the watchlist of the target days |
| ScheduledAnalysis.AddCategory | scripts/scheduled_analysis.py:51-59 | the inner loop appends exactly the selected stocks of one category, in order, tagged with its name |
| ScheduledAnalysis.SelectedInSound | scripts/scheduled_analysis.py:51-59 | every stock taken from a category is one of its entries, tagged with the category, and selected |
| ScheduledAnalysis.WatchlistSound | scripts/scheduled_analysis.py:50-59 | every stock in the watchlist is an entry of a category it is tagged with, and selected |
| ScheduledAnalysis.SelectedInComplete | scripts/scheduled_analysis.py:51-59 | every selected entry of a category is taken |
| ScheduledAnalysis.WatchlistComplete | scripts/scheduled_analysis.py:50-59 | every selected entry of every category is in the watchlist |
| ScheduledAnalysis.AllExcludesWeekendAndDemo | scripts/scheduled_analysis.py:194-196 | `--all` never selects a Saturday, Sunday or demo stock |
| ScheduledAnalysis.WeekdayTargets | scripts/scheduled_analysis.py:196 | the weekday list is its own target list |
| ScheduledAnalysis.ErrorText | scripts/scheduled_analysis.py:132 | the error text is the first 200 characters of the message, all of it when it is shorter |
| ScheduledAnalysis.AccountedCounts | scripts/scheduled_analysis.py:98-134 | the successes are the completed attempts, every stock is either a success or an error, and each error line is the symbol plus at most 202 characters |
| ScheduledAnalysis.AllFailed | scripts/scheduled_analysis.py:129-134 | no success and some error exactly when there were stocks and every attempt raised |
| ScheduledAnalysis.NoneCompleted | scripts/scheduled_analysis.py:129 | no attempt completed exactly when every attempt raised |
| ScheduledAnalysis.RunScheduledAnalysis | scripts/scheduled_analysis.py:64-168 | the results are the accounting of every attempt; a wait of the delay between stocks and none after the last; with a chat and no dry run the start notice, one notice per stock and the summary with both counts, otherwise none; a negative delay with two or more stocks raises ValueError at the first sleep, after the first stock and before any summary |
| ScheduledAnalysis.AccountStock | scripts/scheduled_analysis.py:98-140 | one stock's outcome is added to the accounting and, when messages go out, its notice to the notices sent |
| ScheduledAnalysis.DayList | scripts/scheduled_analysis.py:199 | one day per comma-separated part of `--days`, each stripped, and at least one |
| ScheduledAnalysis.DayListRoundTrip | scripts/scheduled_analysis.py:199 | comma-free day names without surrounding blanks, joined with commas, read back as the same names |
| ScheduledAnalysis.StocksFor | scripts/scheduled_analysis.py:191-203 | `--symbol` analyses only that symbol upper-cased; `--all` the weekday watchlist; `--days` the watchlist of those days; otherwise today's watchlist |
| ScheduledAnalysis.ScheduledMain | scripts/scheduled_analysis.py:171-221 | ValueError escapes exactly when the delay is negative and two or more stocks are selected; otherwise status 1 exactly when stocks were selected and every one of them failed |
| MarketHours.HolidayDates | src/utils/market_hours.py:13-36 | the holiday set is exactly the twenty listed dates of 2025 and 2026 |
| MarketHours.HolidaysOnWeekdays | src/utils/market_hours.py:119-129 | every listed holiday is a weekday; a day trades exactly when it is Monday to Friday and not a holiday, so a weekend never trades |
| MarketHours.IsMarketOpen | src/utils/market_hours.py:65-85 | open exactly on a trading day from 9:30 on the clock until before 16:00 |
| MarketHours.IsPremarket | src/utils/market_hours.py:89-100 | pre-market exactly on a trading day from 4:00 until before 9:30 |
| MarketHours.IsAfterhours | src/utils/market_hours.py:102-113 | after-hours exactly on a trading day from 16:00 until before 20:00 |
| MarketHours.IsExtendedHours | src/utils/market_hours.py:115-117 | extended hours exactly on a trading day from 4:00 until before 20:00 |
| MarketHours.NextMarketOpen | src/utils/market_hours.py:163-200 | always 9:30, on the same day exactly when that day trades and it is not yet 9:30, otherwise on a later day with no trading day in between, at most eleven days on, and a trading day unless the safety limit was passed |
| MarketHours.SessionsExclusive | src/utils/market_hours.py:65-117 | pre-market, regular and after-hours sessions never overlap, and extended hours are a trading day from 4:00 until before 20:00 |
| MarketHours.MarketStatus | src/utils/market_hours.py:147-161 | "Pre-Market", "Open" and "After-Hours" exactly in their sessions, "Closed" exactly outside extended hours |
| MarketHours.NonTradingDayClosed | src/utils/market_hours.py:119-161 | on a weekend or holiday the status is "Closed" |
| MarketHours.StatusNameInjective | src/utils/market_hours.py:154-161 | the four statuses have distinct names |
| MarketHours.SearchFrom | src/utils/market_hours.py:192-197 | the search stops at the first trading day, or one past the ten-day safety limit, and skips only non-trading days |
| MarketHours.GetNextMarketOpen | src/utils/market_hours.py:163-200 | the loop gives today's 9:30 when today trades and it is earlier, otherwise 9:30 of the day the search stops at |
| MarketHours.NextOpenIsLater | src/utils/market_hours.py:182-200 | the next open is strictly later than the moment |
| MarketHours.NoConsecutiveHolidays | src/utils/market_hours.py:13-36 | no two holidays fall on consecutive days |
| MarketHours.TradingDayWithin | src/utils/market_hours.py:119-129 | some day among the next eight trades |
| MarketHours.NextOpenIsOpen | src/utils/market_hours.py:163-200 | the safety limit is never reached: the next open is a moment at which the market is open |
| MarketHours.NextOpenIsFirst | src/utils/market_hours.py:163-200 | no regular session opens between the moment and the next open |
| MarketHours.CountdownOf | src/utils/market_hours.py:218-228 | the countdown is the time to the minute, rounded down; days only beyond 24 hours, minutes only below one hour |
| MarketHours.TimeUntilMarketOpen | src/utils/market_hours.py:202-228 | None exactly while the market is open, otherwise the countdown to the next open |
| MarketHours.SundayOpensMonday | src/utils/market_hours.py:163-200 | on Sunday 8 June 2025 at 4:00 the market is closed and next opens on Monday 9 June at 9:30 |
| SignalExtractor.StripLeadingFence | src/analysis/signal_extractor.py:101 | `^```json?\n?` removes a proper prefix exactly when the text starts with "```jso", and changes nothing otherwise |
| SignalExtractor.CleanResponse | src/analysis/signal_extractor.py:97-102 | a stripped reply that does not start with a fence is used as it is |
| SignalExtractor.JsonFenceRemoved | src/analysis/signal_extractor.py:100-102 | a "```json" fenced body comes out unchanged |
| SignalExtractor.BareFenceKept | src/analysis/signal_extractor.py:100-102 | a bare "```" fence keeps its opening line, because the pattern needs "```js" |
| SignalExtractor.BareFenceSpan | src/analysis/signal_extractor.py:108 | the brace search recovers an object body from behind a kept bare fence |
| SignalExtractor.FromData | src/analysis/signal_extractor.py:128-141 | AttributeError exactly when the decoded value is not a dict; otherwise each field is the dict's value or its default, and the price is the one given |
| SignalExtractor.FromDataFields | src/analysis/signal_extractor.py:128-141 | each field of the built signal is the decoded dict's value under its key, or that key's default when the key is missing |
| SignalExtractor.FieldsRoundTrip | src/analysis/signal_extractor.py:128-141 | building a signal from a signal's own fields gives it back |
| SignalExtractor.EmptyDictDefaults | src/analysis/signal_extractor.py:128-141 | an empty dict gives "HOLD", empty texts, no stop-loss and empty lists |
| SignalExtractor.UnknownKeyIgnored | src/analysis/signal_extractor.py:128-141 | a key the signal does not read changes nothing |
| SignalExtractor.Extract | src/analysis/signal_extractor.py:97-141 | a decodable cleaned reply is used; otherwise the brace span is decoded (ValueError when that fails), or the fixed fallback is returned when there is no span; the price is always the one given |
| SignalExtractor.ExtractSignalWithClaude | src/analysis/signal_extractor.py:43-141 | the extraction gives exactly `Extract` of the reply |
| SignalExtractor.JsonFencedReply | src/analysis/signal_extractor.py:97-105 | a "```json" fenced object is read as that object |
| SignalExtractor.BareFencedReply | src/analysis/signal_extractor.py:97-110 | a bare-fenced object is still read as that object, through the brace search |
| SignalExtractor.BracelessReply | src/analysis/signal_extractor.py:104-126 | an undecodable reply without a closing brace gives the fallback signal |
| SignalExtractor.FormatNumber | src/analysis/signal_extractor.py:166-174 | `:.2f` succeeds exactly for a number; a string raises ValueError and anything else TypeError |
| SignalExtractor.FirstThree | src/analysis/signal_extractor.py:172-187 | `[:3]`: the first three items of a list, or single-character strings of a text; TypeError for anything else |
| SignalExtractor.StopPct | src/analysis/signal_extractor.py:165 | 0 without a price; otherwise the percentage distance of the stop from the price, or TypeError for a non-number |
| SignalExtractor.TargetItem | src/analysis/signal_extractor.py:173-174 | a target gives a line exactly when it is a dict with a truthy numeric price, showing that price and its action |
| SignalExtractor.TargetLines | src/analysis/signal_extractor.py:172-174 | at most one line per target, each with a non-zero price |
| SignalExtractor.StopSection | src/analysis/signal_extractor.py:164-166 | at most one stop-loss line |
| SignalExtractor.TargetSection | src/analysis/signal_extractor.py:169-174 | nothing for falsy targets; otherwise the heading and at most three target lines with non-zero prices |
| SignalExtractor.Bullets | src/analysis/signal_extractor.py:180-188 | one bullet per item, in order |
| SignalExtractor.ListSection | src/analysis/signal_extractor.py:177-188 | only blank, heading and bullet lines |
| SignalExtractor.RecommendationSection | src/analysis/signal_extractor.py:191-194 | present exactly for a truthy recommendation and ending with its text |
| SignalExtractor.Render | src/analysis/signal_extractor.py:144-197 | the four opening lines, then the stop-loss, targets, events, conditions and recommendation sections; TypeError for a list or dict signal type (the emoji lookup) and for a truthy non-string recommendation (the join); otherwise an error exactly when a section raises, in particular for a truthy non-numeric stop-loss |
| SignalExtractor.FormatSignalForTelegram | src/analysis/signal_extractor.py:144-197 | the appending code builds exactly the rendered lines |
| SignalExtractor.AppendList | src/analysis/signal_extractor.py:177-188 | appending a list section adds exactly that section, or raises its error |
| SignalExtractor.TargetsAppend | src/analysis/signal_extractor.py:156-194 | the target lines of a concatenation are those of its parts |
| SignalExtractor.RenderTargets | src/analysis/signal_extractor.py:168-174 | a message shows at most three targets, all with non-zero prices, and none when the targets are falsy |
| SignalExtractor.RenderStop | src/analysis/signal_extractor.py:163-166 | a truthy stop-loss is the fifth line with its value and percentage; otherwise there is no stop-loss line |
| SignalExtractor.RenderRecommendation | src/analysis/signal_extractor.py:190-194 | the message ends with the recommendation exactly when it is truthy |
| Signals.BullishBearishDisjoint | src/analysis/signals.py:57-79 | no signal is both bullish and bearish; both kinds are actionable; the minimum confidence is ignored; exactly HOLD and NEWS_ALERT are not actionable |
| Signals.PotentialProfitPct | src/analysis/signals.py:81-86 | 0 without targets; ZeroDivisionError for a zero price; otherwise the percentage distance of the first target from the price |
| Signals.PotentialLossPct | src/analysis/signals.py:88-90 | TypeError without a stop-loss; ZeroDivisionError for a zero price; otherwise the percentage distance of the stop-loss from the price |
| Signals.PercentSigns | src/analysis/signals.py:81-90 | for a positive price the profit is positive exactly when the first target is above it, and the loss is negative exactly when the stop-loss is below it |
| Signals.BucketOf | src/analysis/signals.py:108-121 | BUY and LONG go to the buy list, SELL and SHORT to the sell list, exactly HOLD to the hold list |
| Signals.ActionableBuckets | src/analysis/signals.py:57-141 | a signal lands in one of the four counted lists exactly when it is actionable |
| Signals.DailySummary.constructor | src/analysis/signals.py:93-106 | empty lists, no top pick, and the given total and errors |
| Signals.DailySummary.ActionableCount | src/analysis/signals.py:133-141 | the sum of the buy, sell, support and resistance list lengths |
| Signals.DailySummary.AddSignal | src/analysis/signals.py:108-121 | the signal is appended to its own list and no other list changes, so the actionable count grows by one exactly for an actionable signal |
| Signals.DailySummary.DetermineTopPick | src/analysis/signals.py:123-131 | the first buy signal, else the first sell signal, else the top pick is left as it was; nothing else changes |
| Signals.InBucketMembers | src/analysis/signals.py:108-121 | the list a bucket holds after adding signals holds only signals of that bucket, taken from the added ones |
| Signals.BucketsPartition | src/analysis/signals.py:108-121 | every added signal lands in exactly one list: the list lengths add up to the number of signals |
| Analyze.SliceTo | src/bot/commands/analyze.py:118 | Python's `text[:n]`: the first n characters, or for a negative n all but the last -n |
| Analyze.TruncateFits | src/bot/commands/analyze.py:114-118 | a text that fits is kept; a longer one keeps its first `max_length - 3` characters and ends in "...", exactly `max_length` long; truncating twice changes nothing more |
| Analyze.SizingOf | src/bot/commands/analyze.py:87-106 | sizing is shown exactly for a non-zero budget, with the profile's default stop-loss and the capitalised profile name |
| Analyze.SizingBounds | src/bot/commands/analyze.py:101-105 | for a positive budget, 0 < low position < high position < budget, and the maximum risk is the stop-loss share of the high position, at most an eighth of the budget |
| Analyze.FormatResult | src/bot/commands/analyze.py:65-112 | AttributeError exactly when the decision is not a text (`.upper()` fails); otherwise the signal read from its first 100 characters, the decision cut to 1500 characters, the sizing and the symbol |
| Analyze.ReplyShape | src/bot/commands/analyze.py:74-96 | a missing decision gives HOLD and an empty analysis; the signal depends only on the first 100 characters, whatever their case, and the analysis never exceeds 1500 characters |
| PortfolioCommands.BarShape | src/bot/commands/portfolio.py:48-49 | for a share between 0 and 100 the bar has 20 cells, and cell i is filled exactly when (i + 1) * 5 <= the share, that is `int(pct / 5)` filled cells |
| PortfolioCommands.RowsShape | src/bot/commands/portfolio.py:46-55 | the rows fail exactly when some position has no percentage (the `KeyError`); otherwise two lines per position followed by the footer |
| PortfolioCommands.RowAt | src/bot/commands/portfolio.py:46-51 | the k-th position gives its line with symbol, amount and share, then the bar of that share |
| PortfolioCommands.PortfolioViewFails | src/bot/commands/portfolio.py:22-35 | an empty portfolio gives only the "no portfolio" text; a non-empty one fails exactly when its total is 0, because the percentages are then empty and the lookup raises KeyError |
| PortfolioCommands.PortfolioViewOrder | src/bot/commands/portfolio.py:34-57 | the positions are a permutation of the portfolio sorted by amount, descending, each shown with its bar, between the heading and the total, profile and hint lines |
| PortfolioCommands.PercentageOfPosition | src/bot/user_state.py:88-93 | every position has a percentage when the total is not 0 |
| PortfolioCommands.ShowPortfolio | src/bot/commands/portfolio.py:22-57 | the loop builds exactly the portfolio view |
| PortfolioCommands.PortfolioCommand.constructor | src/bot/commands/portfolio.py:19-20 | the command works on the given user store |
| PortfolioCommands.PortfolioCommand.AddPosition | src/bot/commands/portfolio.py:85-91 | the user is fetched (created when new), the upper-cased symbol is set to the amount, overwriting any earlier one, and the user is stored |
| PortfolioCommands.PortfolioCommand.RemovePosition | src/bot/commands/portfolio.py:93-103 | removal succeeds exactly when the upper-cased symbol is held; then exactly that key is deleted and the user stored, otherwise the portfolio is unchanged |
| PortfolioCommands.AddThenRemove | src/bot/commands/portfolio.py:85-103 | after adding, the symbol maps to the amount and other symbols are untouched; removing it afterwards leaves the other symbols as removing it straight away would |
| Sorting.SortDesc | src/bot/commands/portfolio.py:40-44 | `sorted(..., reverse=True)` returns a permutation of its input |
| Sorting.SortDescOrdered | src/bot/commands/portfolio.py:40-44 | the result is ordered by key, descending, and holds exactly the input's elements |
| Sorting.TopNOrdered | src/scanner/gem_finder.py:200-203 | the first n of the sorted list are in descending order, taken from the input, and no element left out has a larger key than one kept |
| ChartVision.CalculateSma | scripts/chart_vision.py:122-128 | a fresh array of the data's length whose entry i is NaN before the first full window (everywhere when the data is shorter than the period) and the mean of the `period` values ending at i elsewhere |
| ChartVision.SmaConstant | scripts/chart_vision.py:122-128 | the average of constant data is that constant |
| ChartVision.SmaWithin | scripts/chart_vision.py:122-128 | every average lies between the smallest and largest bound of the data |
| ChartVision.SmaSlide | scripts/chart_vision.py:126-127 | moving one step on adds the new value and drops the oldest, each divided by the period |
| ChartVision.CalculateObv | scripts/chart_vision.py:181-191 | a fresh array of the closes' length: 0 first, then the previous total plus the volume on an up close, minus it on a down close, unchanged on an equal close |
| ChartVision.ObvUpdate | scripts/chart_vision.py:185-190 | one step writes entry i as that rule says and leaves the later entries alone |
| ChartVision.ObvFlat | scripts/chart_vision.py:181-191 | flat closes give an OBV of 0 everywhere |
| ChartVision.ObvRising | scripts/chart_vision.py:181-191 | strictly rising closes give the running sum of the volumes after the first |
| ChartVision.ObvBounded | scripts/chart_vision.py:181-191 | with non-negative volumes the OBV never exceeds in size the running volume sum |
| ChartVision.Range | scripts/chart_vision.py:166-167 | a zero high-low range is read as 1, so the divisor is never 0 |
| ChartVision.FlowVolumes | scripts/chart_vision.py:165-171 | one money flow volume per bar: its multiplier times its volume |
| ChartVision.CalculateCmf | scripts/chart_vision.py:158-178 | a fresh array of the closes' length whose entry i is NaN without a full window or where the window's volume is not positive, and otherwise the window's money flow volume over its volume |
| ChartVision.MultiplierBounded | scripts/chart_vision.py:166-168 | for a close within the bar's range the multiplier lies in [-1, 1] |
| ChartVision.CmfBounded | scripts/chart_vision.py:158-178 | for closes within their ranges and non-negative volumes every CMF value lies in [-1, 1] |
| ChartVision.CmfNoVolume | scripts/chart_vision.py:174-176 | a window without volume stays NaN |
| GemsWorker.Truncate | scripts/gems_worker.py:23-25 | the posted text has at most 4000 characters: a longer text keeps its first 3997 and ends in "...", a shorter one is kept |
| GemsWorker.TruncateIdempotent | scripts/gems_worker.py:23-25 | truncating a posted text again changes nothing |
| GemsWorker.TruncatePrefix | scripts/gems_worker.py:23-25 | the posted text is the whole text, or a prefix of it followed by "..." |
| GemsWorker.SubredditsFor | scripts/gems_worker.py:49-57 | a subreddit list exactly for "wsb", "pennys" and "squeeze", never empty; any other filter scans the default list |
| GemsWorker.SubredditsIgnoreCase | scripts/gems_worker.py:43 | the filter ignores case |
| GemsWorker.NoFilterScansAll | scripts/gems_worker.py:43-57 | an unset filter scans the default subreddits |
| GemsWorker.NoGemsText | scripts/gems_worker.py:77-81 | the English text exactly for "en", German otherwise |
| GemsWorker.ErrorText | scripts/gems_worker.py:93 | the error post is the heading, the first 200 characters of the exception (all of it when shorter) and a closing backtick, at most 226 long |
| GemsWorker.ErrorNotTruncated | scripts/gems_worker.py:93-94 | an error post is always posted in full |
| GemsWorker.Posts | scripts/gems_worker.py:83-94 | the truncated message, followed by the error post exactly when posting raised; every post fits the limit |
| GemsWorker.PostScan | scripts/gems_worker.py:74-98 | the summary or the "no gems" text is posted; status 0 exactly when the post came back ok |
| GemsWorker.RunWorker | scripts/gems_worker.py:36-98 | without a chat nothing is posted and the status is 1; a raising scan posts only its error; otherwise the scan of the chosen subreddits with a $2B cap, prices from 0.10 to 50, at most five gems and no volume-spike requirement is posted; status 0 exactly when there is a chat, the scan did not raise and the post came back ok |

## Left out

- Network, backend and storage calls are inputs, not behaviour. This covers the text-generation and vision backends, the Anthropic client, the Telegram Bot API, the Supabase client, yfinance, Reddit (PRAW and JSON), Finnhub and the Alpha Vantage HTTP request. Each call is a reply, an outcome that may be an exception (`CallOutcome`, `Reply`), or an `Option` given to the model. Where a member takes a plain reply text, that call is modelled as returning, and a raise from it is not modelled. The lines below name the members where this leaves out a raise the source lets escape.
- UniversalAgents.RunUniversalAnalysis: the debate and judge calls (`roleReplies`) are reply texts. A call that raises, such as `call_gemini_pro` or the text call after a failed vision call, ends the Python function with that exception; this is not modelled.
- CommodityAgents.RunCommodityAnalysis: the debate calls and the risk judge's call are reply texts. `call_gemini_with_search` and `call_gemini_deep_think` have no handler, so a raising call ends the Python function; this is not modelled.
- ComparisonWorker.ComparisonMain: `sent` is the result of the final `send_telegram_message`. A missing `TELEGRAM_BOT_TOKEN` or a raising `requests.post` in any of its sends is not modelled.
- TelegramWorker.SendTelegramMessage: the Telegram API's answers are booleans, so a `requests.post` that raises (a connection error) is not modelled.
- ComparisonWorker.IndexOf gives the length for a symbol that is not in the list, where `list.index` raises ValueError. Every finished analysis carries the symbol its task was submitted with, so `main` never reaches that case.
- RiskManager.RiskManagerNode gives TypeError when the failing retry content is a dict, as slicing a dict does before Python 3.12. From 3.12 on, a slice is hashable and the same slice raises KeyError; the model does not distinguish the two versions.
- RedditScanner.IsWordChar covers `\w` only on the Latin-1 range, so a letter beyond it (Greek, Cyrillic, CJK) counts as a non-word character. The word-boundary lemmas RedditScanner.Greedy, RedditScanner.GreedyInsideRun and RedditScanner.GreedyIsRun inherit this.
- Concurrency is left out because the model is sequential. This covers the thread pools of scripts/portfolio_worker.py and scripts/comparison_worker.py, `asyncio.gather`/`run_in_executor` in src/bot/commands/risk.py and compare.py, and the singleton lock of `AlphaVantageKeyRotator.__new__`. The order in which parallel work finishes is an input, as the `completed` sequence of `ComparisonWorker.ComparisonMain`.
- `time.sleep` is recorded as a wait value and is not performed. Clock readings (`datetime.now`, `time.time`, `get_current_day`) are parameters.
- Time-zone conversion with `ZoneInfo` is left out. `MarketHours` takes moments already in New York local time, to the whole second, so daylight-saving changes are not modelled.
- Prompt texts are left out. A prompt is recorded as the state it was built from, so their wording and the f-string layout are not modelled.
- Message wording, emoji and number formatting (`:,.0f`, `:.2f`, `:.0%`) are left out, because they are presentation. A Telegram message is modelled as the list of its lines and the values they show. A format that raises (a string given to `:.2f`) is modelled as the exception.
- `json.loads`, `float()` and `yaml.safe_load` are abstract parameters, because their parsers are outside the core.
- Floating point is not modelled: prices, percentages and indicators are exact reals. NaN is `None` in `ChartVision`, and binary64 rounding is not modelled.
- Compare.PctChange: a zero past price gives `None`, where numpy would give `inf` or NaN. No ordinary close is 0.
- LongShort.StockDataOf: a zero last close is a division error, where numpy would give `inf` for the ATR percentage. The 52-week low and high are computed by the source but never shown, so they are not modelled.
- LongShort.RecommendedLeverage: the distance to the barrier is a numpy float64 (src/bot/commands/long_short.py:93, 145 and 160), so `100 / distance_to_ko` with a zero distance gives `inf` with a RuntimeWarning rather than raising. The model returns the OverflowError that `int(inf)` then raises (src/bot/commands/long_short.py:152 and 167); the infinite intermediate value is not modelled.
- ChartVision.CalculateSma requires a period of at least 1, because the source calls it only with 50 and 200.
- ChartVision.CalculateCmf requires a period of at least 1, because the source calls it only with 20.
- `_calculate_rsi`, `generate_trading_chart`, `create_chart_for_analysis`, `fetch_ohlcv_for_chart` and `_format_price` in scripts/chart_vision.py are left out. They are plotting and pandas/numpy numerics.
- Return-series correlation (`.corr`) in src/bot/commands/risk.py is the parameter `corr`, and the number of common dates is `common`.
- JSON persistence in `UserStateManager` (`_load_all`, `_save_all`) is left out. Only the in-memory cache is modelled.
- UserStates.UserStateManager.constructor starts from an empty cache instead of loading the file.
- `PortfolioCommand.set_portfolio` builds only a confirmation text, so only the store update is modelled, as `UserStates.UserStateManager.SetPortfolio`.
- ScheduledAnalysis.RunScheduledAnalysis does not model the text of its notices, only which notices are sent with which counts.
- TelegramWorker.AnalysisSection treats a truthy non-text `detailed_analysis` as TypeError. Python does raise for a number or a dict, but it slices and prints a list.
- MainBot.TickerGap takes the `ticker_delay` setting as a number. A non-numeric setting, which makes Python's `max` raise, is not modelled.
- Python's `\d`, `str.upper` and `str.lower` are modelled on ASCII letters and digits. The one exception is the Latin-1 range needed by the Reddit keyword finding below. Whitespace for `strip` and `\s` is the full `str.isspace` set.
- GemFinder.StockInfoFields reads `shortName` and `sector` holding None as missing keys. Python keeps the None as the name or sector, which only reaches the message text.
- WebSearchScanner.ValidateMeaning reads `shortName`, `sector` and `regularMarketChangePercent` holding None as missing keys. Python keeps the None; a None change would make `gem.change_pct >= 0` in `format_gems_summary` raise TypeError (scripts/web_search_scanner.py:250), which the model does not reach.
- GemsWorker.RunWorker renders the gem summary with the abstract function `render`, because `format_gems_summary` builds its wording from the summary lines of `GemFinder.FormatGemsSummary`.
- GemsWorker.RunWorker does not model `print` and the traceback. An exception raised while posting the error text ends the process with status 1, as the return does.
- RedditScanner gives the tickers of a text as a set. The source returns `list(set(...))`, whose order is unspecified.
- ComparisonWorker.ParseSymbolsMeaning states that the symbols are the words of the comma-free text. It does not separately prove that no parsed symbol holds a comma.
- The `AnalyzeCommand.execute` graph run and the `/analyze` handler around `_format_result` are left out. The graph is the backend.
- The chromadb memory, logging, news wrappers, help and profile texts, `__init__` re-exports and integration tests are left out. They hold no modelled logic.
- The code is followed where it and its tests disagree. src/analysis/signals.py ignores the minimum confidence and picks the first buy or sell signal as the top pick (`Signals.BullishBearishDisjoint`, `Signals.DailySummary.DetermineTopPick`), although older tests expect confidence filtering.

## Findings

| source | as written | input that shows it | evidently intended | confidence | as-written member | corrected member |
|---|---|---|---|---|---|---|
| src/scanner/reddit_scanner.py:132-135 | the rocket keyword is the mis-decoded text `ðŸš€`, which holds the capital letter `Ÿ`; it is compared against `text.lower()`, where `Ÿ` has become `ÿ` | any title holding 🚀 or `ðŸš€`: the keyword never counts as bullish | the rocket emoji 🚀 counts as a bullish keyword | not executed | RedditScanner.MojibakeKeywordNeverMatches | RedditScanner.RocketKeywordMatches |
| scripts/telegram_worker.py:85-90 | a chunk is flushed when `current` is non-empty and only then stripped, so a chunk holding only newlines is sent as an empty message | a 3999-character line without newlines followed by "\n\n" | blank chunks are not sent | not executed | TelegramWorker.BlankChunkAsWritten | TelegramWorker.SplitMessage |
