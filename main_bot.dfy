/** `src/main.py`: the day filter of `load_config`, the TradingAgents
    configuration of `create_trading_agents_config`, the signal-type map of
    `create_signal_from_state`, the per-ticker retry and delay loop of
    `TradingBot.run`, the notification fan-out of `send_notifications` and
    the exit status of `main`. The TradingAgents graph run and the signal
    extraction for one stock are an oracle: `attempt(i, k)` is what the
    k-th attempt on the i-th stock produced. Sleeps are recorded as waits. */
module MainBot {
  import opened Wrappers
  import opened JsonValue
  import opened Text
  import opened Signals

  // ---------------------------------------------------------------------------
  // load_config: the watchlist day filter

  /** A stock entry of watchlist.yaml; `day` is "" when the entry has none. */
  datatype Entry = Entry(symbol: string, name: string, day: string)

  /** One category of watchlist.yaml with its entries, in file order. */
  datatype Category = Category(name: string, entries: seq<Entry>)

  /** A watchlist stock after `load_config` tagged it with its category. */
  datatype Stock = Stock(symbol: string, name: string, day: string, category: string)

  function Tag(e: Entry, category: string): Stock
  {
    Stock(e.symbol, e.name, e.day, category)
  }

  /** The lower-cased requested days, or the current day when none are given. */
  function TargetDays(days: seq<string>, currentDay: string): (targets: seq<string>)
    ensures targets != []
    ensures days == [] ==> targets == [currentDay]
    ensures days != [] ==> |targets| == |days| && forall i :: 0 <= i < |days| ==> targets[i] == Lower(days[i])
    ensures days != [] ==> forall d :: d in days ==> Lower(d) in targets
  {
    if days == [] then [currentDay]
    else
      var t := seq(|days|, i requires 0 <= i < |days| => Lower(days[i]));
      assert forall i :: 0 <= i < |days| ==> Lower(days[i]) == t[i];
      t
  }

  /** Whether `load_config` keeps a stock with this day. */
  predicate Kept(day: string, filterByDay: bool, targets: seq<string>)
  {
    var stockDay := Lower(day);
    !(filterByDay && stockDay != "") || stockDay in targets
  }

  /** The kept stocks among the first n entries of one category. */
  function KeptIn(c: Category, filterByDay: bool, targets: seq<string>, n: nat): seq<Stock>
    requires n <= |c.entries|
  {
    if n == 0 then []
    else
      KeptIn(c, filterByDay, targets, n - 1)
      + (if Kept(c.entries[n - 1].day, filterByDay, targets) then [Tag(c.entries[n - 1], c.name)] else [])
  }

  /** The flattened watchlist of a list of categories. */
  function Flattened(data: seq<Category>, filterByDay: bool, targets: seq<string>): seq<Stock>
  {
    if data == [] then []
    else
      var last := data[|data| - 1];
      Flattened(data[..|data| - 1], filterByDay, targets) + KeptIn(last, filterByDay, targets, |last.entries|)
  }

  /** `load_config`'s watchlist loop: every stock of every category, in file
      order, tagged with its category and kept by the day filter. */
  method LoadConfig(data: seq<Category>, filterByDay: bool, days: seq<string>, currentDay: string)
    returns (watchlist: seq<Stock>)
    ensures watchlist == Flattened(data, filterByDay, TargetDays(days, currentDay))
  {
    var targets := TargetDays(days, currentDay);
    watchlist := [];
    var i := 0;
    while i < |data|
      invariant 0 <= i <= |data|
      invariant watchlist == Flattened(data[..i], filterByDay, targets)
    {
      var category := data[i];
      ghost var before := watchlist;
      var j := 0;
      while j < |category.entries|
        invariant 0 <= j <= |category.entries|
        invariant watchlist == before + KeptIn(category, filterByDay, targets, j)
      {
        var stock := Tag(category.entries[j], category.name);
        var stockDay := Lower(stock.day);
        if filterByDay && stockDay != "" {
          if stockDay in targets {
            watchlist := watchlist + [stock];
          }
        } else {
          watchlist := watchlist + [stock];
        }
        j := j + 1;
      }
      assert data[..i + 1][..i] == data[..i];
      i := i + 1;
    }
    assert data[..|data|] == data;
  }

  lemma {:induction false} KeptInSound(c: Category, filterByDay: bool, targets: seq<string>, n: nat, s: Stock)
    requires n <= |c.entries|
    requires s in KeptIn(c, filterByDay, targets, n)
    ensures s.category == c.name && Entry(s.symbol, s.name, s.day) in c.entries
    ensures !filterByDay || s.day == "" || Lower(s.day) in targets
  {
    if s !in KeptIn(c, filterByDay, targets, n - 1) {
      assert s == Tag(c.entries[n - 1], c.name);
    } else {
      KeptInSound(c, filterByDay, targets, n - 1, s);
    }
  }

  /** Every stock of the watchlist comes from a category of the file, carries
      that category's name, and either the filter is off, the stock has no
      day, or its lower-cased day is a target day. */
  lemma {:induction false} LoadConfigSound(data: seq<Category>, filterByDay: bool, targets: seq<string>, s: Stock)
    requires s in Flattened(data, filterByDay, targets)
    ensures exists i :: 0 <= i < |data| && data[i].name == s.category && Entry(s.symbol, s.name, s.day) in data[i].entries
    ensures !filterByDay || s.day == "" || Lower(s.day) in targets
  {
    var front := data[..|data| - 1];
    var last := data[|data| - 1];
    if s in Flattened(front, filterByDay, targets) {
      LoadConfigSound(front, filterByDay, targets, s);
      var i :| 0 <= i < |front| && front[i].name == s.category && Entry(s.symbol, s.name, s.day) in front[i].entries;
      assert data[i] == front[i];
    } else {
      KeptInSound(last, filterByDay, targets, |last.entries|, s);
    }
  }

  lemma {:induction false} KeptInComplete(c: Category, filterByDay: bool, targets: seq<string>, n: nat, j: nat)
    requires j < n <= |c.entries|
    requires !filterByDay || c.entries[j].day == "" || Lower(c.entries[j].day) in targets
    ensures Tag(c.entries[j], c.name) in KeptIn(c, filterByDay, targets, n)
  {
    if j < n - 1 {
      KeptInComplete(c, filterByDay, targets, n - 1, j);
    }
  }

  /** Conversely every entry that passes the filter (the filter is off, the
      entry has no day, or its lower-cased day is a target) is in the
      watchlist, tagged with its category. */
  lemma {:induction false} LoadConfigComplete(data: seq<Category>, filterByDay: bool, targets: seq<string>, i: nat, j: nat)
    requires i < |data| && j < |data[i].entries|
    requires !filterByDay || data[i].entries[j].day == "" || Lower(data[i].entries[j].day) in targets
    ensures Tag(data[i].entries[j], data[i].name) in Flattened(data, filterByDay, targets)
  {
    var front := data[..|data| - 1];
    if i < |data| - 1 {
      assert front[i] == data[i];
      LoadConfigComplete(front, filterByDay, targets, i, j);
    } else {
      KeptInComplete(data[i], filterByDay, targets, |data[i].entries|, j);
    }
  }

  // ---------------------------------------------------------------------------
  // create_trading_agents_config

  datatype TaConfig = TaConfig(
    llmProvider: Json,
    quickThinkLlm: Json,
    deepThinkLlm: Json,
    backendUrl: Json,
    maxDebateRounds: Json,
    maxRiskDiscussRounds: Json,
    dataVendors: map<string, string>)

  /** The default (quick, deep) models of the three provider modes. */
  function ProviderModels(provider: Json): Option<(string, string)>
  {
    match provider
    case JStr(p) =>
      if p == "mixed" then Some(("gemini-3-flash-preview", "claude-opus-4-5-20251101"))
      else if p == "anthropic" then Some(("claude-haiku-4-5-20251001", "claude-opus-4-5-20251101"))
      else if p == "google" then Some(("gemini-3-flash-preview", "gemini-2.5-pro"))
      else None
    case _ => None
  }

  const DataVendors: map<string, string> := map[
    "core_stock_apis" := "yfinance",
    "technical_indicators" := "yfinance",
    "fundamental_data" := "alpha_vantage",
    "news_data" := "alpha_vantage"]

  /** `settings.get(section, {})` as a dict to call `.get` on: a settings
      value or a section that is not a dict raises AttributeError. */
  function Section(settings: Json, section: string): (r: Result<map<string, Json>, PyError>)
    ensures r.Err? ==> r.error == AttributeError
    ensures r.Ok? <==> settings.JObj? && Get(settings.fields, section, JObj(map[])).JObj?
  {
    if !settings.JObj? then Err(AttributeError)
    else
      match Get(settings.fields, section, JObj(map[]))
      case JObj(fields) => Ok(fields)
      case _ => Err(AttributeError)
  }

  /** `create_trading_agents_config`: the provider (default "mixed"); for the
      three known modes each model is the setting or that mode's default, for
      any other provider the library defaults stay; the backend URL and the
      two round counts default to the Anthropic endpoint, 2 and 1. */
  function CreateTradingAgentsConfig(settings: Json, defaultQuick: Json, defaultDeep: Json): (r: Result<TaConfig, PyError>)
    ensures r.Err? <==> Section(settings, "llm").Err?
    ensures r.Ok? ==>
      var llm := Section(settings, "llm").value;
      var provider := Get(llm, "provider", JStr("mixed"));
      var models := ProviderModels(provider);
      && r.value.llmProvider == provider
      && r.value.quickThinkLlm == (if models.Some? then Get(llm, "quick_think_model", JStr(models.value.0)) else defaultQuick)
      && r.value.deepThinkLlm == (if models.Some? then Get(llm, "deep_think_model", JStr(models.value.1)) else defaultDeep)
      && r.value.backendUrl == Get(llm, "backend_url", JStr("https://api.anthropic.com"))
      && r.value.maxDebateRounds == Get(llm, "max_debate_rounds", JNum(2.0))
      && r.value.maxRiskDiscussRounds == Get(llm, "max_risk_discuss_rounds", JNum(1.0))
      && r.value.dataVendors == DataVendors
  {
    match Section(settings, "llm")
    case Err(e) => Err(e)
    case Ok(llm) =>
      var provider := Get(llm, "provider", JStr("mixed"));
      var models :=
        if provider == JStr("mixed") then
          (Get(llm, "quick_think_model", JStr("gemini-3-flash-preview")), Get(llm, "deep_think_model", JStr("claude-opus-4-5-20251101")))
        else if provider == JStr("anthropic") then
          (Get(llm, "quick_think_model", JStr("claude-haiku-4-5-20251001")), Get(llm, "deep_think_model", JStr("claude-opus-4-5-20251101")))
        else if provider == JStr("google") then
          (Get(llm, "quick_think_model", JStr("gemini-3-flash-preview")), Get(llm, "deep_think_model", JStr("gemini-2.5-pro")))
        else (defaultQuick, defaultDeep);
      Ok(TaConfig(provider, models.0, models.1,
                  Get(llm, "backend_url", JStr("https://api.anthropic.com")),
                  Get(llm, "max_debate_rounds", JNum(2.0)),
                  Get(llm, "max_risk_discuss_rounds", JNum(1.0)),
                  DataVendors))
  }

  /** With no llm section at all the mode is "mixed": Gemini Flash for the
      analysts, Claude Opus for the final decision, 2 debate rounds and 1
      risk round. */
  lemma ConfigDefaults(defaultQuick: Json, defaultDeep: Json)
    ensures CreateTradingAgentsConfig(JObj(map[]), defaultQuick, defaultDeep)
            == Ok(TaConfig(JStr("mixed"), JStr("gemini-3-flash-preview"), JStr("claude-opus-4-5-20251101"),
                           JStr("https://api.anthropic.com"), JNum(2.0), JNum(1.0), DataVendors))
  {
    var r := CreateTradingAgentsConfig(JObj(map[]), defaultQuick, defaultDeep);
    assert Section(JObj(map[]), "llm") == Ok(map[]);
    assert ProviderModels(JStr("mixed")).Some?;
    assert r.value.llmProvider == JStr("mixed");
  }

  /** For a provider outside the three modes the configured model names are
      ignored and the library defaults are kept. */
  lemma UnknownProviderKeepsDefaults(llm: map<string, Json>, defaultQuick: Json, defaultDeep: Json)
    requires ProviderModels(Get(llm, "provider", JStr("mixed"))).None?
    ensures CreateTradingAgentsConfig(JObj(map["llm" := JObj(llm)]), defaultQuick, defaultDeep).value.quickThinkLlm == defaultQuick
    ensures CreateTradingAgentsConfig(JObj(map["llm" := JObj(llm)]), defaultQuick, defaultDeep).value.deepThinkLlm == defaultDeep
  {
    assert Section(JObj(map["llm" := JObj(llm)]), "llm") == Ok(llm);
  }

  // ---------------------------------------------------------------------------
  // create_signal_from_state: the signal-type map

  /** `signal_type_map.get(extracted.signal_type.upper(), SignalType.HOLD)`:
      the five names map to their type in any letter case, anything else to
      HOLD; a value that is not a string has no `.upper()`. */
  function MapSignalType(signalType: Json): (r: Result<SignalType, PyError>)
    ensures r.Err? <==> !signalType.JStr?
    ensures r.Err? ==> r.error == AttributeError
    ensures r.Ok? ==> r.value in {Buy, Sell, Hold, Long, Short}
    ensures r.Ok? ==> (r.value != Hold ==> SignalTypeValue(r.value) == Upper(signalType.s))
    ensures r.Ok? ==> (r.value == Hold <==> Upper(signalType.s) !in {"BUY", "SELL", "LONG", "SHORT"})
  {
    match signalType
    case JStr(s) =>
      var u := Upper(s);
      Ok(if u == "BUY" then Buy
         else if u == "SELL" then Sell
         else if u == "HOLD" then Hold
         else if u == "LONG" then Long
         else if u == "SHORT" then Short
         else Hold)
    case _ => Err(AttributeError)
  }

  lemma UpperOfUpper(s: string)
    requires forall i :: 0 <= i < |s| ==> IsAsciiUpper(s[i]) || s[i] == '_'
    ensures Upper(s) == s
  {
  }

  /** The value of each of the five mapped types maps back to that type,
      and the alert types (not in the map) come out as HOLD. */
  lemma MapSignalTypeRoundTrip(t: SignalType)
    ensures MapSignalType(JStr(SignalTypeValue(t))) == Ok(if t in {Buy, Sell, Long, Short} then t else Hold)
  {
    var v := SignalTypeValue(t);
    UpperOfUpper(v);
    assert Upper(v) == v;
    match t
    case Buy =>
    case Sell => assert v != "BUY";
    case Hold => assert v != "BUY" && v != "SELL";
    case Long => assert v != "BUY" && v != "SELL" && v != "HOLD";
    case Short => assert v != "BUY" && v != "SELL" && v != "HOLD" && v != "LONG";
    case _ => assert |v| > 5;
  }

  /** The map ignores letter case: "buy" and "BUY" give the same type. */
  lemma MapSignalTypeIgnoresCase(s: string)
    ensures MapSignalType(JStr(Lower(s))) == MapSignalType(JStr(s))
  {
    UpperOfLower(s);
  }

  // ---------------------------------------------------------------------------
  // TradingBot: settings

  /** `settings.get(section, {}).get(key, default)`. */
  function Setting(settings: Json, section: string, key: string, default: Json): (r: Result<Json, PyError>)
    ensures r.Err? <==> Section(settings, section).Err?
    ensures r.Ok? && key !in Section(settings, section).value ==> r.value == default
  {
    match Section(settings, section)
    case Err(e) => Err(e)
    case Ok(fields) => Ok(Get(fields, key, default))
  }

  /** The bot's alert threshold (default 65) and ticker delay (default 5). */
  function MinConfidence(settings: Json): Result<Json, PyError>
  {
    Setting(settings, "trading", "min_confidence_for_alert", JNum(65.0))
  }

  function TickerDelay(settings: Json): Result<Json, PyError>
  {
    Setting(settings, "analysis", "ticker_delay", JNum(5.0))
  }

  /** `max(ticker_delay, 30)`. */
  function TickerGap(tickerDelay: real): (gap: real)
    ensures gap >= 30.0 && gap >= tickerDelay
    ensures gap == tickerDelay || gap == 30.0
  {
    if tickerDelay >= 30.0 then tickerDelay else 30.0
  }

  /** With empty settings the threshold is 65 and the ticker delay 5, so the
      pause between tickers is 30 seconds. */
  lemma BotDefaults()
    ensures MinConfidence(JObj(map[])) == Ok(JNum(65.0))
    ensures TickerDelay(JObj(map[])) == Ok(JNum(5.0))
    ensures TickerGap(AsNumber(TickerDelay(JObj(map[])).value).value) == 30.0
  {
    assert Section(JObj(map[]), "trading") == Ok(map[]);
    assert Section(JObj(map[]), "analysis") == Ok(map[]);
  }

  // ---------------------------------------------------------------------------
  // TradingBot.run: the retry loop of one stock

  const MaxRetries: nat := 3

  /** What one attempt on a stock ended with: a signal, or an exception
      whose `str` is `message`. */
  datatype Attempt = Analysed(signal: TradingSignal) | Raised(message: string)

  /** `"429" in error_str or "rate_limit" in error_str.lower()`. */
  predicate IsRateLimitError(message: string)
  {
    Contains(message, "429") || Contains(Lower(message), "rate_limit")
  }

  predicate RateLimitHit(a: Attempt)
  {
    a.Raised? && IsRateLimitError(a.message)
  }

  /** A recorded sleep: a rate-limit backoff or the pause between tickers. */
  datatype Wait = Backoff(seconds: real) | Gap(seconds: real)

  datatype StockOutcome = Signalled(signal: TradingSignal) | RateLimitExhausted | Failed(message: string)

  datatype StockResult = StockResult(outcome: StockOutcome, waits: seq<Wait>)

  /** The attempts on stock `stock` from retry count `retries` on: a signal
      ends the loop, another error ends it without retry, and a rate-limit
      hit backs off and retries unless it was the third. */
  function RetryStock(attempt: (nat, nat) -> Attempt, stock: nat, retries: nat): (r: StockResult)
    requires retries < MaxRetries
    decreases MaxRetries - retries
    ensures retries + |r.waits| < MaxRetries
  {
    match attempt(stock, retries)
    case Analysed(s) => StockResult(Signalled(s), [])
    case Raised(m) =>
      if !IsRateLimitError(m) then StockResult(Failed(m), [])
      else if retries + 1 == MaxRetries then StockResult(RateLimitExhausted, [])
      else
        var rest := RetryStock(attempt, stock, retries + 1);
        StockResult(rest.outcome, [Backoff(60.0 * ((retries + 1) as real))] + rest.waits)
  }

  /** Each backoff is 60 seconds times the retry count it follows. */
  lemma {:induction false} RetryBackoffs(attempt: (nat, nat) -> Attempt, stock: nat, retries: nat)
    requires retries < MaxRetries
    decreases MaxRetries - retries
    ensures var ws := RetryStock(attempt, stock, retries).waits;
      forall k :: 0 <= k < |ws| ==> ws[k] == Backoff(60.0 * ((retries + k + 1) as real))
  {
    var a := attempt(stock, retries);
    if a.Raised? && IsRateLimitError(a.message) && retries + 1 < MaxRetries {
      RetryBackoffs(attempt, stock, retries + 1);
      var rest := RetryStock(attempt, stock, retries + 1).waits;
      var ws := RetryStock(attempt, stock, retries).waits;
      assert ws == [Backoff(60.0 * ((retries + 1) as real))] + rest;
      forall k | 0 <= k < |ws|
        ensures ws[k] == Backoff(60.0 * ((retries + k + 1) as real))
      {
        if k > 0 {
          assert ws[k] == rest[k - 1];
        }
      }
    }
  }

  /** The decisive attempt is the one after the backoffs: every attempt
      before it hit the rate limit, and the outcome is that attempt's
      signal, its error when that is not a rate-limit error, and exhaustion
      exactly when it is the third attempt and hits the rate limit too. */
  lemma {:induction false} RetryMeaning(attempt: (nat, nat) -> Attempt, stock: nat, retries: nat)
    requires retries < MaxRetries
    decreases MaxRetries - retries
    ensures var r := RetryStock(attempt, stock, retries);
      && (forall k :: retries <= k < retries + |r.waits| ==> RateLimitHit(attempt(stock, k)))
      && (r.outcome.Signalled? <==> attempt(stock, retries + |r.waits|).Analysed?)
      && (r.outcome.Signalled? ==> attempt(stock, retries + |r.waits|) == Analysed(r.outcome.signal))
      && (r.outcome.Failed? ==>
            attempt(stock, retries + |r.waits|) == Raised(r.outcome.message) && !IsRateLimitError(r.outcome.message))
      && (r.outcome.RateLimitExhausted? <==>
            retries + |r.waits| == MaxRetries - 1 && RateLimitHit(attempt(stock, MaxRetries - 1)))
  {
    RetryHits(attempt, stock, retries);
    RetryOutcome(attempt, stock, retries);
    RetryExhausted(attempt, stock, retries);
  }

  lemma {:induction false} RetryHits(attempt: (nat, nat) -> Attempt, stock: nat, retries: nat)
    requires retries < MaxRetries
    decreases MaxRetries - retries
    ensures var r := RetryStock(attempt, stock, retries);
      forall k :: retries <= k < retries + |r.waits| ==> RateLimitHit(attempt(stock, k))
  {
    var a := attempt(stock, retries);
    if a.Raised? && IsRateLimitError(a.message) && retries + 1 < MaxRetries {
      RetryHits(attempt, stock, retries + 1);
    }
  }

  lemma {:induction false} RetryOutcome(attempt: (nat, nat) -> Attempt, stock: nat, retries: nat)
    requires retries < MaxRetries
    decreases MaxRetries - retries
    ensures var r := RetryStock(attempt, stock, retries);
      && (r.outcome.Signalled? <==> attempt(stock, retries + |r.waits|).Analysed?)
      && (r.outcome.Signalled? ==> attempt(stock, retries + |r.waits|) == Analysed(r.outcome.signal))
      && (r.outcome.Failed? ==>
            attempt(stock, retries + |r.waits|) == Raised(r.outcome.message) && !IsRateLimitError(r.outcome.message))
  {
    var a := attempt(stock, retries);
    if a.Raised? && IsRateLimitError(a.message) && retries + 1 < MaxRetries {
      RetryOutcome(attempt, stock, retries + 1);
    }
  }

  lemma {:induction false} RetryExhausted(attempt: (nat, nat) -> Attempt, stock: nat, retries: nat)
    requires retries < MaxRetries
    decreases MaxRetries - retries
    ensures var r := RetryStock(attempt, stock, retries);
      r.outcome.RateLimitExhausted? <==>
        retries + |r.waits| == MaxRetries - 1 && RateLimitHit(attempt(stock, MaxRetries - 1))
  {
    var a := attempt(stock, retries);
    if a.Raised? && IsRateLimitError(a.message) && retries + 1 < MaxRetries {
      RetryExhausted(attempt, stock, retries + 1);
    }
  }

  /** At most two backoffs, 60 and then 120 seconds; three rate-limit hits in
      a row exhaust the retries, and an error of another kind on the first
      attempt is never retried. */
  lemma RetryBounds(attempt: (nat, nat) -> Attempt, stock: nat)
    ensures |RetryStock(attempt, stock, 0).waits| <= 2
    ensures RetryStock(attempt, stock, 0).waits == [Backoff(60.0), Backoff(120.0)][..|RetryStock(attempt, stock, 0).waits|]
    ensures (forall k :: 0 <= k < MaxRetries ==> RateLimitHit(attempt(stock, k)))
            ==> RetryStock(attempt, stock, 0) == StockResult(RateLimitExhausted, [Backoff(60.0), Backoff(120.0)])
    ensures attempt(stock, 0).Raised? && !IsRateLimitError(attempt(stock, 0).message)
            ==> RetryStock(attempt, stock, 0) == StockResult(Failed(attempt(stock, 0).message), [])
  {
    var r := RetryStock(attempt, stock, 0);
    RetryMeaning(attempt, stock, 0);
    RetryBackoffs(attempt, stock, 0);
    if |r.waits| == 1 {
      assert r.waits[0] == Backoff(60.0);
    } else if |r.waits| == 2 {
      assert r.waits[0] == Backoff(60.0) && r.waits[1] == Backoff(120.0);
    }
    if forall k :: 0 <= k < MaxRetries ==> RateLimitHit(attempt(stock, k)) {
      assert RateLimitHit(attempt(stock, |r.waits|));
      assert |r.waits| == 2;
    }
  }

  /** The signals a stock contributes: its signal, if any. */
  function SignalList(o: StockOutcome): seq<TradingSignal>
  {
    if o.Signalled? then [o.signal] else []
  }

  /** The error line a stock contributes, if any. */
  function ErrorLines(symbol: string, o: StockOutcome): seq<string>
  {
    match o
    case Signalled(_) => []
    case RateLimitExhausted => [symbol + ": Rate limit exceeded after 3 retries"]
    case Failed(m) => [symbol + ": " + m]
  }

  lemma InBucketSnoc(signals: seq<TradingSignal>, extra: seq<TradingSignal>, b: Bucket)
    requires |extra| <= 1
    ensures InBucket(signals + extra, b)
            == InBucket(signals, b) + (if extra != [] && BucketOf(extra[0].signalType) == b then extra else [])
  {
    if extra != [] {
      assert (signals + extra)[..|signals|] == signals;
    } else {
      assert signals + extra == signals;
    }
  }

  /** `summary.add_signal(signal)` on a summary whose buckets hold `signals`. */
  method RecordSignal(summary: DailySummary, signal: TradingSignal, ghost signals: seq<TradingSignal>)
    requires forall b :: summary.Signals(b) == InBucket(signals, b)
    modifies summary
    ensures forall b :: summary.Signals(b) == InBucket(signals + [signal], b)
    ensures summary.errors == old(summary.errors)
    ensures summary.totalAnalyzed == old(summary.totalAnalyzed) && summary.topPick == old(summary.topPick)
  {
    summary.AddSignal(signal);
    forall b ensures summary.Signals(b) == InBucket(signals + [signal], b) {
      InBucketSnoc(signals, [signal], b);
    }
  }

  /** `summary.errors.append(line)`. */
  method RecordError(summary: DailySummary, line: string)
    modifies summary
    ensures summary.errors == old(summary.errors) + [line]
    ensures forall b :: summary.Signals(b) == old(summary.Signals(b))
    ensures summary.totalAnalyzed == old(summary.totalAnalyzed) && summary.topPick == old(summary.topPick)
  {
    summary.errors := summary.errors + [line];
  }

  lemma WaitsAssoc(a: seq<Wait>, w: Wait, b: seq<Wait>)
    ensures a + ([w] + b) == (a + [w]) + b
  {
  }

  /** The `while retry_count < max_retries and not success` loop for the
      stock with index `stock`: its signal goes to the summary, its error
      line to the summary's errors, and its backoffs are returned. */
  method AnalyzeStock(summary: DailySummary, symbol: string, attempt: (nat, nat) -> Attempt, stock: nat,
                      ghost signals: seq<TradingSignal>)
    returns (waits: seq<Wait>)
    requires forall b :: summary.Signals(b) == InBucket(signals, b)
    modifies summary
    ensures var r := RetryStock(attempt, stock, 0);
      && waits == r.waits
      && summary.errors == old(summary.errors) + ErrorLines(symbol, r.outcome)
      && (forall b :: summary.Signals(b) == InBucket(signals + SignalList(r.outcome), b))
    ensures summary.totalAnalyzed == old(summary.totalAnalyzed) && summary.topPick == old(summary.topPick)
  {
    ghost var r := RetryStock(attempt, stock, 0);
    ghost var added: seq<TradingSignal> := [];
    ghost var logged: seq<string> := [];
    assert signals + added == signals;
    var retryCount: nat := 0;
    var success := false;
    waits := [];
    while retryCount < MaxRetries && !success
      invariant retryCount <= MaxRetries
      invariant summary.errors == old(summary.errors) + logged
      invariant forall b :: summary.Signals(b) == InBucket(signals + added, b)
      invariant !success && retryCount < MaxRetries ==>
        && logged == [] && added == []
        && r.outcome == RetryStock(attempt, stock, retryCount).outcome
        && r.waits == waits + RetryStock(attempt, stock, retryCount).waits
      invariant success ==> r.outcome.Signalled? && added == SignalList(r.outcome) && logged == [] && r.waits == waits
      invariant retryCount == MaxRetries ==>
        r.outcome == RateLimitExhausted && logged == ErrorLines(symbol, r.outcome) && added == [] && r.waits == waits
      invariant summary.totalAnalyzed == old(summary.totalAnalyzed) && summary.topPick == old(summary.topPick)
      decreases MaxRetries - retryCount, if success then 0 else 1
    {
      var broke;
      retryCount, success, broke, waits, added, logged := TryOnce(summary, symbol, attempt, stock, retryCount, signals, r, waits);
      if broke {
        break;
      }
    }
  }

  /** One pass of the retry loop (the `try`/`except` block): attempt
      `retryCount` of the stock, with `r` its overall retry result and
      `waits0` the backoffs so far. The signal is recorded on success; a
      rate-limit hit backs off, or gives up on the third; any other error is
      recorded and `broke` ends the loop. */
  method TryOnce(summary: DailySummary, symbol: string, attempt: (nat, nat) -> Attempt, stock: nat, retryCount: nat,
                 ghost signals: seq<TradingSignal>, ghost r: StockResult, waits0: seq<Wait>)
    returns (next: nat, success: bool, broke: bool, waits: seq<Wait>, ghost added: seq<TradingSignal>, ghost logged: seq<string>)
    requires retryCount < MaxRetries
    requires r.outcome == RetryStock(attempt, stock, retryCount).outcome
    requires r.waits == waits0 + RetryStock(attempt, stock, retryCount).waits
    requires forall b :: summary.Signals(b) == InBucket(signals, b)
    modifies summary
    ensures next == retryCount + 1 || (next == retryCount && (success || broke))
    ensures summary.errors == old(summary.errors) + logged
    ensures forall b :: summary.Signals(b) == InBucket(signals + added, b)
    ensures !success && !broke && next < MaxRetries ==>
      && logged == [] && added == []
      && r.outcome == RetryStock(attempt, stock, next).outcome
      && r.waits == waits + RetryStock(attempt, stock, next).waits
    ensures success ==> r.outcome.Signalled? && added == SignalList(r.outcome) && logged == [] && r.waits == waits
    ensures next == MaxRetries ==>
      r.outcome == RateLimitExhausted && logged == ErrorLines(symbol, r.outcome) && added == [] && r.waits == waits
    ensures broke ==>
      !success && r.outcome.Failed? && logged == ErrorLines(symbol, r.outcome) && added == [] && r.waits == waits
    ensures summary.totalAnalyzed == old(summary.totalAnalyzed) && summary.topPick == old(summary.topPick)
  {
    next, success, broke, waits, added, logged := retryCount, false, false, waits0, [], [];
    assert signals + added == signals;
    match attempt(stock, retryCount)
    case Analysed(signal) =>
      assert RetryStock(attempt, stock, retryCount) == StockResult(Signalled(signal), []);
      assert waits0 + [] == waits0;
      RecordSignal(summary, signal, signals);
      added := [signal];
      success := true;
    case Raised(errorStr) =>
      if IsRateLimitError(errorStr) {
        next := retryCount + 1;
        if next < MaxRetries {
          ghost var rest := RetryStock(attempt, stock, next);
          var backoff := Backoff(60.0 * (next as real));
          assert RetryStock(attempt, stock, retryCount) == StockResult(rest.outcome, [backoff] + rest.waits);
          WaitsAssoc(waits0, backoff, rest.waits);
          waits := waits0 + [backoff];
        } else {
          assert RetryStock(attempt, stock, retryCount) == StockResult(RateLimitExhausted, []);
          assert waits0 + [] == waits0;
          RecordError(summary, symbol + ": Rate limit exceeded after 3 retries");
          logged := [symbol + ": Rate limit exceeded after 3 retries"];
        }
      } else {
        assert RetryStock(attempt, stock, retryCount) == StockResult(Failed(errorStr), []);
        assert waits0 + [] == waits0;
        RecordError(summary, symbol + ": " + errorStr);
        logged := [symbol + ": " + errorStr];
        broke := true;
      }
  }

  // ---------------------------------------------------------------------------
  // TradingBot.run: the whole run

  /** The accumulated outcome of the first stocks of a run. */
  datatype RunState = RunState(signals: seq<TradingSignal>, errors: seq<string>, waits: seq<Wait>)

  /** The retry result of each of the first `n` stocks. */
  function Results(attempt: (nat, nat) -> Attempt, n: nat): (rs: seq<StockResult>)
    ensures |rs| == n
  {
    if n == 0 then [] else Results(attempt, n - 1) + [RetryStock(attempt, n - 1, 0)]
  }

  /** Entry `i` of the results is stock `i`'s retry result. */
  lemma {:induction false} ResultAt(attempt: (nat, nat) -> Attempt, n: nat, i: nat)
    requires i < n
    ensures Results(attempt, n)[i] == RetryStock(attempt, i, 0)
  {
    if i < n - 1 {
      ResultAt(attempt, n - 1, i);
    }
  }

  /** The first `k` stocks of `stocks`, stock i with retry result `rs[i]`,
      and after each stock but the last the pause `gap`. */
  function Processed(stocks: seq<Stock>, rs: seq<StockResult>, gap: real, k: nat): RunState
    requires k <= |stocks| && k <= |rs|
  {
    if k == 0 then RunState([], [], [])
    else
      var prev := Processed(stocks, rs, gap, k - 1);
      var r := rs[k - 1];
      RunState(prev.signals + SignalList(r.outcome),
               prev.errors + ErrorLines(stocks[k - 1].symbol, r.outcome),
               prev.waits + r.waits + (if k < |stocks| then [Gap(gap)] else []))
  }

  /** `[s for s in watchlist if s["symbol"] == symbol]`. */
  function WithSymbol(watchlist: seq<Stock>, symbol: string): (r: seq<Stock>)
    ensures |r| <= |watchlist|
    ensures forall s :: s in r <==> s in watchlist && s.symbol == symbol
  {
    if watchlist == [] then []
    else
      var last := watchlist[|watchlist| - 1];
      var front := watchlist[..|watchlist| - 1];
      assert watchlist == front + [last];
      WithSymbol(front, symbol) + (if last.symbol == symbol then [last] else [])
  }

  /** The stocks the run analyses: all of them, or only those of the single
      symbol when one is given. */
  function ToAnalyze(watchlist: seq<Stock>, singleSymbol: string): seq<Stock>
  {
    if singleSymbol != "" then WithSymbol(watchlist, singleSymbol) else watchlist
  }

  /** `TradingBot.run`. On a day the market does not trade, or when the
      single symbol is not in the watchlist, the summary holds no stock and
      one error. Otherwise it counts the stocks to analyse, holds each
      stock's signal in its bucket and each failed stock's error line, in
      stock order, and the top pick is the first buy signal, else the first
      sell signal. */
  method Run(watchlist: seq<Stock>, singleSymbol: string, tickerDelay: real, isTradingDay: bool,
             attempt: (nat, nat) -> Attempt)
    returns (summary: DailySummary, waits: seq<Wait>)
    ensures fresh(summary)
    ensures !isTradingDay ==>
      summary.totalAnalyzed == 0 && summary.errors == ["Market is closed today"] && waits == []
      && summary.topPick.None? && forall b :: summary.Signals(b) == []
    ensures isTradingDay && singleSymbol != "" && WithSymbol(watchlist, singleSymbol) == [] ==>
      summary.totalAnalyzed == 0 && summary.errors == ["Symbol " + singleSymbol + " not in watchlist"] && waits == []
      && summary.topPick.None? && forall b :: summary.Signals(b) == []
    ensures isTradingDay && !(singleSymbol != "" && WithSymbol(watchlist, singleSymbol) == []) ==>
      var stocks := ToAnalyze(watchlist, singleSymbol);
      var p := Processed(stocks, Results(attempt, |stocks|), TickerGap(tickerDelay), |stocks|);
      && summary.totalAnalyzed == |stocks|
      && summary.errors == p.errors
      && waits == p.waits
      && (forall b :: summary.Signals(b) == InBucket(p.signals, b))
      && summary.topPick == (if summary.buySignals != [] then Some(summary.buySignals[0])
                             else if summary.sellSignals != [] then Some(summary.sellSignals[0])
                             else None)
  {
    waits := [];
    if !isTradingDay {
      summary := new DailySummary(0, ["Market is closed today"]);
      return;
    }
    var stocks := watchlist;
    if singleSymbol != "" {
      stocks := WithSymbol(watchlist, singleSymbol);
      if stocks == [] {
        summary := new DailySummary(0, ["Symbol " + singleSymbol + " not in watchlist"]);
        return;
      }
    }
    summary, waits := AnalyzeStocks(stocks, attempt, TickerGap(tickerDelay));
  }

  /** The part of `run` after the checks: a summary counting the stocks,
      the loop over them, then the top pick. */
  method AnalyzeStocks(stocks: seq<Stock>, attempt: (nat, nat) -> Attempt, gap: real)
    returns (summary: DailySummary, waits: seq<Wait>)
    ensures fresh(summary)
    ensures var p := Processed(stocks, Results(attempt, |stocks|), gap, |stocks|);
      && summary.totalAnalyzed == |stocks|
      && summary.errors == p.errors
      && waits == p.waits
      && (forall b :: summary.Signals(b) == InBucket(p.signals, b))
      && summary.topPick == (if summary.buySignals != [] then Some(summary.buySignals[0])
                             else if summary.sellSignals != [] then Some(summary.sellSignals[0])
                             else None)
  {
    summary := new DailySummary(|stocks|, []);
    ResultsAll(attempt, |stocks|);
    waits := AnalyzeAll(summary, stocks, attempt, gap, Results(attempt, |stocks|));
    summary.DetermineTopPick();
  }

  /** Every entry of the results is its stock's retry result. */
  lemma ResultsAll(attempt: (nat, nat) -> Attempt, n: nat)
    ensures forall i :: 0 <= i < n ==> Results(attempt, n)[i] == RetryStock(attempt, i, 0)
  {
    forall i | 0 <= i < n
      ensures Results(attempt, n)[i] == RetryStock(attempt, i, 0)
    {
      ResultAt(attempt, n, i);
    }
  }

  /** The `for i, stock in enumerate(stocks_to_analyze)` loop: each stock's
      retries, then the pause between tickers unless it was the last.
      `rs` holds the retry result of each stock. */
  method AnalyzeAll(summary: DailySummary, stocks: seq<Stock>, attempt: (nat, nat) -> Attempt, gap: real,
                    ghost rs: seq<StockResult>)
    returns (waits: seq<Wait>)
    requires |rs| == |stocks| && forall i :: 0 <= i < |rs| ==> rs[i] == RetryStock(attempt, i, 0)
    requires summary.errors == [] && forall b :: summary.Signals(b) == []
    modifies summary
    ensures var p := Processed(stocks, rs, gap, |stocks|);
      && summary.errors == p.errors
      && waits == p.waits
      && (forall b :: summary.Signals(b) == InBucket(p.signals, b))
    ensures summary.totalAnalyzed == old(summary.totalAnalyzed) && summary.topPick == old(summary.topPick)
  {
    ghost var signals: seq<TradingSignal> := [];
    FieldsFromBuckets(summary, signals);
    waits := [];
    var i := 0;
    while i < |stocks|
      invariant 0 <= i <= |stocks|
      invariant Processed(stocks, rs, gap, i) == RunState(signals, summary.errors, waits)
      invariant BucketsHold(summary.buySignals, summary.sellSignals, summary.supportAlerts, summary.resistanceAlerts, summary.newsAlerts, summary.holdSignals, signals)
      invariant summary.totalAnalyzed == old(summary.totalAnalyzed) && summary.topPick == old(summary.topPick)
    {
      waits := AnalyzeNext(summary, stocks, attempt, gap, i, rs, signals, waits);
      signals := signals + SignalList(rs[i].outcome);
      i := i + 1;
    }
    BucketsFromFields(summary, signals);
  }

  /** The six buckets of a summary hold the given signals. */
  predicate BucketsHold(buy: seq<TradingSignal>, sell: seq<TradingSignal>, support: seq<TradingSignal>,
                        resistance: seq<TradingSignal>, news: seq<TradingSignal>, hold: seq<TradingSignal>,
                        signals: seq<TradingSignal>)
  {
    && buy == InBucket(signals, BuyBucket) && sell == InBucket(signals, SellBucket)
    && support == InBucket(signals, SupportBucket) && resistance == InBucket(signals, ResistanceBucket)
    && news == InBucket(signals, NewsBucket) && hold == InBucket(signals, HoldBucket)
  }

  lemma BucketsFromFields(summary: DailySummary, signals: seq<TradingSignal>)
    requires BucketsHold(summary.buySignals, summary.sellSignals, summary.supportAlerts, summary.resistanceAlerts, summary.newsAlerts, summary.holdSignals, signals)
    ensures forall b :: summary.Signals(b) == InBucket(signals, b)
  {
  }

  lemma FieldsFromBuckets(summary: DailySummary, signals: seq<TradingSignal>)
    requires forall b :: summary.Signals(b) == InBucket(signals, b)
    ensures BucketsHold(summary.buySignals, summary.sellSignals, summary.supportAlerts, summary.resistanceAlerts, summary.newsAlerts, summary.holdSignals, signals)
  {
    assert summary.Signals(BuyBucket) == summary.buySignals;
    assert summary.Signals(SellBucket) == summary.sellSignals;
    assert summary.Signals(SupportBucket) == summary.supportAlerts;
    assert summary.Signals(ResistanceBucket) == summary.resistanceAlerts;
    assert summary.Signals(NewsBucket) == summary.newsAlerts;
    assert summary.Signals(HoldBucket) == summary.holdSignals;
  }

  /** One pass of the loop: stock `i`'s retries, then the pause unless it
      was the last stock. */
  method AnalyzeNext(summary: DailySummary, stocks: seq<Stock>, attempt: (nat, nat) -> Attempt, gap: real, i: nat,
                     ghost rs: seq<StockResult>, ghost signals: seq<TradingSignal>, waits0: seq<Wait>)
    returns (waits: seq<Wait>)
    requires i < |stocks| && i < |rs| && rs[i] == RetryStock(attempt, i, 0)
    requires Processed(stocks, rs, gap, i) == RunState(signals, summary.errors, waits0)
    requires BucketsHold(summary.buySignals, summary.sellSignals, summary.supportAlerts, summary.resistanceAlerts, summary.newsAlerts, summary.holdSignals, signals)
    modifies summary
    ensures Processed(stocks, rs, gap, i + 1) == RunState(signals + SignalList(rs[i].outcome), summary.errors, waits)
    ensures BucketsHold(summary.buySignals, summary.sellSignals, summary.supportAlerts, summary.resistanceAlerts, summary.newsAlerts, summary.holdSignals, signals + SignalList(rs[i].outcome))
    ensures summary.totalAnalyzed == old(summary.totalAnalyzed) && summary.topPick == old(summary.topPick)
  {
    BucketsFromFields(summary, signals);
    var stockWaits := AnalyzeStock(summary, stocks[i].symbol, attempt, i, signals);
    ProcessedNext(stocks, rs, gap, i + 1);
    FieldsFromBuckets(summary, signals + SignalList(rs[i].outcome));
    waits := waits0 + stockWaits;
    if i < |stocks| - 1 {
      waits := waits + [Gap(gap)];
    }
  }

  // ---------------------------------------------------------------------------
  // properties of a run

  function CountGaps(ws: seq<Wait>): nat
  {
    if ws == [] then 0 else CountGaps(ws[..|ws| - 1]) + (if ws[|ws| - 1].Gap? then 1 else 0)
  }

  lemma {:induction false} CountGapsAppend(a: seq<Wait>, b: seq<Wait>)
    ensures CountGaps(a + b) == CountGaps(a) + CountGaps(b)
    decreases |b|
  {
    if b == [] {
      assert a + b == a;
    } else {
      assert (a + b)[..|a + b| - 1] == a + b[..|b| - 1];
      CountGapsAppend(a, b[..|b| - 1]);
    }
  }

  lemma {:induction false} NoGaps(ws: seq<Wait>)
    requires forall k :: 0 <= k < |ws| ==> ws[k].Backoff?
    ensures CountGaps(ws) == 0
  {
    if ws != [] {
      NoGaps(ws[..|ws| - 1]);
    }
  }

  /** A gap of the given length, or a backoff of 60 or 120 seconds. */
  predicate WellTimed(w: Wait, gap: real)
  {
    match w
    case Gap(seconds) => seconds == gap
    case Backoff(seconds) => seconds == 60.0 || seconds == 120.0
  }

  /** The waits of one stock: none, 60 seconds, or 60 then 120 seconds. */
  predicate BackoffsOnly(ws: seq<Wait>)
  {
    |ws| <= 2 && ws == [Backoff(60.0), Backoff(120.0)][..|ws|]
  }

  /** Every stock's retries wait only the two backoffs, in order. */
  lemma ResultsBackoffs(attempt: (nat, nat) -> Attempt, n: nat)
    ensures forall i :: 0 <= i < n ==> BackoffsOnly(Results(attempt, n)[i].waits)
  {
    forall i | 0 <= i < n
      ensures BackoffsOnly(Results(attempt, n)[i].waits)
    {
      ResultAt(attempt, n, i);
      RetryBounds(attempt, i);
    }
  }

  lemma BackoffsNoGaps(ws: seq<Wait>)
    requires BackoffsOnly(ws)
    ensures CountGaps(ws) == 0
  {
    NoGaps(ws);
  }

  lemma CountGaps3(a: seq<Wait>, b: seq<Wait>, c: seq<Wait>)
    ensures CountGaps(a + b + c) == CountGaps(a) + CountGaps(b) + CountGaps(c)
  {
    CountGapsAppend(a + b, c);
    CountGapsAppend(a, b);
  }

  lemma GapsOfPause(tail: seq<Wait>, gap: real)
    requires tail == [] || tail == [Gap(gap)]
    ensures CountGaps(tail) == |tail|
  {
    if tail != [] {
      assert tail[..0] == [];
    }
  }

  lemma BackoffsWellTimed(ws: seq<Wait>, gap: real)
    requires BackoffsOnly(ws)
    ensures forall w :: w in ws ==> WellTimed(w, gap)
  {
    forall w | w in ws ensures WellTimed(w, gap) {
      assert w in [Backoff(60.0), Backoff(120.0)];
    }
  }

  lemma WellTimedConcat(all: seq<Wait>, a: seq<Wait>, b: seq<Wait>, c: seq<Wait>, gap: real)
    requires all == a + b + c
    requires forall w :: w in a ==> WellTimed(w, gap)
    requires forall w :: w in b ==> WellTimed(w, gap)
    requires forall w :: w in c ==> WellTimed(w, gap)
    ensures forall w :: w in all ==> WellTimed(w, gap)
  {
  }

  /** Every analysed stock ends with exactly one of a signal and an error
      line. */
  lemma {:induction false} RunAccounting(stocks: seq<Stock>, rs: seq<StockResult>, gap: real, k: nat)
    requires k <= |stocks| == |rs|
    ensures |Processed(stocks, rs, gap, k).signals| + |Processed(stocks, rs, gap, k).errors| == k
  {
    if k > 0 {
      RunAccounting(stocks, rs, gap, k - 1);
      OneLine(stocks[k - 1].symbol, rs[k - 1].outcome);
    }
  }

  lemma OneLine(symbol: string, o: StockOutcome)
    ensures |SignalList(o)| + |ErrorLines(symbol, o)| == 1
  {
  }

  lemma ProcessedNext(stocks: seq<Stock>, rs: seq<StockResult>, gap: real, k: nat)
    requires 0 < k <= |stocks| && k <= |rs|
    ensures var prev := Processed(stocks, rs, gap, k - 1);
      Processed(stocks, rs, gap, k)
      == RunState(prev.signals + SignalList(rs[k - 1].outcome),
                  prev.errors + ErrorLines(stocks[k - 1].symbol, rs[k - 1].outcome),
                  prev.waits + rs[k - 1].waits + (if k < |stocks| then [Gap(gap)] else []))
  {
  }

  /** The waits of a run alone: each stock's backoffs, then the pause
      `gap` unless it was the last stock. */
  function Paced(rs: seq<StockResult>, gap: real, k: nat): seq<Wait>
    requires k <= |rs|
  {
    if k == 0 then [] else Paced(rs, gap, k - 1) + rs[k - 1].waits + (if k < |rs| then [Gap(gap)] else [])
  }

  /** The waits of the run state are the paced waits. */
  lemma {:induction false} ProcessedPaced(stocks: seq<Stock>, rs: seq<StockResult>, gap: real, k: nat)
    requires k <= |stocks| == |rs|
    ensures Processed(stocks, rs, gap, k).waits == Paced(rs, gap, k)
  {
    if k > 0 {
      ProcessedPaced(stocks, rs, gap, k - 1);
    }
  }

  /** The pause between tickers comes once after every stock but the last. */
  lemma RunGaps(stocks: seq<Stock>, attempt: (nat, nat) -> Attempt, gap: real, k: nat)
    requires k <= |stocks|
    ensures CountGaps(Processed(stocks, Results(attempt, |stocks|), gap, k).waits)
            == if k == |stocks| && k > 0 then k - 1 else k
  {
    ProcessedPaced(stocks, Results(attempt, |stocks|), gap, k);
    ResultsNoGaps(attempt, |stocks|);
    PacedGaps(Results(attempt, |stocks|), gap, k);
  }

  /** No stock's retries wait the pause between tickers. */
  lemma ResultsNoGaps(attempt: (nat, nat) -> Attempt, n: nat)
    ensures forall i :: 0 <= i < n ==> CountGaps(Results(attempt, n)[i].waits) == 0
  {
    ResultsBackoffs(attempt, n);
    forall i | 0 <= i < n
      ensures CountGaps(Results(attempt, n)[i].waits) == 0
    {
      BackoffsNoGaps(Results(attempt, n)[i].waits);
    }
  }

  lemma {:induction false} PacedGaps(rs: seq<StockResult>, gap: real, k: nat)
    requires k <= |rs|
    requires forall i :: 0 <= i < |rs| ==> CountGaps(rs[i].waits) == 0
    ensures CountGaps(Paced(rs, gap, k)) == if k == |rs| && k > 0 then k - 1 else k
  {
    if k > 0 {
      PacedGaps(rs, gap, k - 1);
      GapsStep(Paced(rs, gap, k), Paced(rs, gap, k - 1), rs[k - 1].waits,
               if k < |rs| then [Gap(gap)] else [], gap, k - 1);
    }
  }

  lemma GapsStep(all: seq<Wait>, front: seq<Wait>, ws: seq<Wait>, tail: seq<Wait>, gap: real, n: nat)
    requires all == front + ws + tail && CountGaps(front) == n && CountGaps(ws) == 0
    requires tail == [] || tail == [Gap(gap)]
    ensures CountGaps(all) == n + |tail|
  {
    CountGaps3(front, ws, tail);
    GapsOfPause(tail, gap);
  }

  /** Every pause between tickers has the given length, and every other wait
      is a backoff of 60 or 120 seconds. */
  lemma RunWaits(stocks: seq<Stock>, attempt: (nat, nat) -> Attempt, gap: real, k: nat)
    requires k <= |stocks|
    ensures forall w :: w in Processed(stocks, Results(attempt, |stocks|), gap, k).waits ==> WellTimed(w, gap)
  {
    ProcessedPaced(stocks, Results(attempt, |stocks|), gap, k);
    ResultsBackoffs(attempt, |stocks|);
    PacedWaits(Results(attempt, |stocks|), gap, k);
  }

  lemma {:induction false} PacedWaits(rs: seq<StockResult>, gap: real, k: nat)
    requires k <= |rs|
    requires forall i :: 0 <= i < |rs| ==> BackoffsOnly(rs[i].waits)
    ensures forall w :: w in Paced(rs, gap, k) ==> WellTimed(w, gap)
  {
    if k > 0 {
      PacedWaits(rs, gap, k - 1);
      BackoffsWellTimed(rs[k - 1].waits, gap);
      var tail: seq<Wait> := if k < |rs| then [Gap(gap)] else [];
      assert forall w :: w in tail ==> WellTimed(w, gap);
      WellTimedConcat(Paced(rs, gap, k), Paced(rs, gap, k - 1), rs[k - 1].waits, tail, gap);
    }
  }

  /** The exit status `main` derives from the summary. */
  function ExitStatus(errors: seq<string>, buys: seq<TradingSignal>, sells: seq<TradingSignal>): (code: int)
    ensures code == 0 || code == 1
    ensures code == 1 <==> errors != [] && buys == [] && sells == []
  {
    if errors != [] && buys == [] && sells == [] then 1 else 0
  }

  lemma {:induction false} InBucketEmpty(signals: seq<TradingSignal>, b: Bucket)
    ensures InBucket(signals, b) == [] <==> forall s :: s in signals ==> BucketOf(s.signalType) != b
  {
    if signals != [] {
      var front := signals[..|signals| - 1];
      InBucketEmpty(front, b);
      assert signals == front + [signals[|signals| - 1]];
    }
  }

  /** A finished run exits with 1 exactly when some stock failed and no
      stock produced a bullish or bearish signal. */
  lemma RunExitStatus(stocks: seq<Stock>, attempt: (nat, nat) -> Attempt, gap: real)
    ensures var p := Processed(stocks, Results(attempt, |stocks|), gap, |stocks|);
      ExitStatus(p.errors, InBucket(p.signals, BuyBucket), InBucket(p.signals, SellBucket)) == 1
      <==> |p.signals| < |stocks| && forall s :: s in p.signals ==> !IsBullish(s) && !IsBearish(s)
  {
    RunAccounting(stocks, Results(attempt, |stocks|), gap, |stocks|);
    var p := Processed(stocks, Results(attempt, |stocks|), gap, |stocks|);
    InBucketEmpty(p.signals, BuyBucket);
    InBucketEmpty(p.signals, SellBucket);
  }

  // ---------------------------------------------------------------------------
  // send_notifications

  /** The Telegram messages `send_notifications` sends, in order. */
  datatype Notice = Startup | SignalNotice(signal: TradingSignal) | SummaryNotice | Completion(analyzed: int, alerts: nat)

  function ActionableOnly(ss: seq<TradingSignal>, minConfidence: real): (r: seq<TradingSignal>)
    ensures |r| <= |ss|
  {
    if ss == [] then []
    else
      ActionableOnly(ss[..|ss| - 1], minConfidence)
      + (if IsActionable(ss[|ss| - 1], minConfidence) then [ss[|ss| - 1]] else [])
  }

  function Notices(ss: seq<TradingSignal>): (ns: seq<Notice>)
    ensures |ns| == |ss|
  {
    if ss == [] then [] else Notices(ss[..|ss| - 1]) + [SignalNotice(ss[|ss| - 1])]
  }

  /** `send_notifications`: the startup message, every actionable signal of
      the buy, sell, support and resistance lists, every HOLD signal, the
      daily summary when enabled and the completion message with the number
      of alerts sent. */
  method SendNotifications(summary: DailySummary, minConfidence: real, sendSummary: bool)
    returns (sent: seq<Notice>, alertsSent: nat)
    ensures var shown := ActionableOnly(summary.buySignals + summary.sellSignals + summary.supportAlerts
                                        + summary.resistanceAlerts, minConfidence);
      && alertsSent == |shown|
      && sent == [Startup] + Notices(shown) + Notices(summary.holdSignals)
                 + (if sendSummary then [SummaryNotice] else []) + [Completion(summary.totalAnalyzed, alertsSent)]
  {
    var alerts, holds;
    alerts, alertsSent := SendAlerts(summary.buySignals + summary.sellSignals + summary.supportAlerts
                                     + summary.resistanceAlerts, minConfidence);
    holds := SendHolds(summary.holdSignals);
    sent := [Startup] + alerts + holds;
    if sendSummary {
      sent := sent + [SummaryNotice];
    }
    sent := sent + [Completion(summary.totalAnalyzed, alertsSent)];
  }

  /** The alert loop: a notice for each actionable signal, in order, and
      their number. */
  method SendAlerts(actionable: seq<TradingSignal>, minConfidence: real)
    returns (sent: seq<Notice>, alertsSent: nat)
    ensures alertsSent == |ActionableOnly(actionable, minConfidence)|
    ensures sent == Notices(ActionableOnly(actionable, minConfidence))
  {
    sent := [];
    alertsSent := 0;
    ghost var shown: seq<TradingSignal> := [];
    for i := 0 to |actionable|
      invariant shown == ActionableOnly(actionable[..i], minConfidence)
      invariant alertsSent == |shown|
      invariant sent == Notices(shown)
    {
      assert actionable[..i + 1][..i] == actionable[..i];
      if IsActionable(actionable[i], minConfidence) {
        sent := sent + [SignalNotice(actionable[i])];
        alertsSent := alertsSent + 1;
        shown := shown + [actionable[i]];
      }
    }
    assert actionable[..|actionable|] == actionable;
  }

  /** The HOLD loop: a notice for every HOLD signal, in order. */
  method SendHolds(holds: seq<TradingSignal>) returns (sent: seq<Notice>)
    ensures sent == Notices(holds)
  {
    sent := [];
    for i := 0 to |holds|
      invariant sent == Notices(holds[..i])
    {
      assert holds[..i + 1][..i] == holds[..i];
      sent := sent + [SignalNotice(holds[i])];
    }
    assert holds[..|holds|] == holds;
  }

  /** `is_actionable` ignores the minimum confidence: a list of signals in
      the buy, sell, support and resistance buckets passes unchanged. */
  lemma {:induction false} ActionableOnlyAll(ss: seq<TradingSignal>, minConfidence: real)
    requires forall s :: s in ss ==> BucketOf(s.signalType) in {BuyBucket, SellBucket, SupportBucket, ResistanceBucket}
    ensures ActionableOnly(ss, minConfidence) == ss
  {
    if ss != [] {
      var front := ss[..|ss| - 1];
      assert forall s :: s in front ==> s in ss;
      ActionableOnlyAll(front, minConfidence);
      ActionableBuckets(ss[|ss| - 1], minConfidence);
      SnocSeq(ss);
    }
  }

  /** For the buckets a run fills, every buy, sell, support and resistance
      signal is sent, so the alerts sent are the summary's actionable count. */
  lemma RunAlertsAll(signals: seq<TradingSignal>, minConfidence: real)
    ensures var all := InBucket(signals, BuyBucket) + InBucket(signals, SellBucket)
                       + InBucket(signals, SupportBucket) + InBucket(signals, ResistanceBucket);
      ActionableOnly(all, minConfidence) == all
  {
    var all := InBucket(signals, BuyBucket) + InBucket(signals, SellBucket)
               + InBucket(signals, SupportBucket) + InBucket(signals, ResistanceBucket);
    InBucketMembers(signals, BuyBucket);
    InBucketMembers(signals, SellBucket);
    InBucketMembers(signals, SupportBucket);
    InBucketMembers(signals, ResistanceBucket);
    ActionableOnlyAll(all, minConfidence);
  }

  // ---------------------------------------------------------------------------
  // main: the exit status

  /** How `bot.run()` and the notifications ended. */
  datatype RunEnd =
    | Finished(errors: seq<string>, buys: seq<TradingSignal>, sells: seq<TradingSignal>)
    | Interrupted
    | Crashed

  /** `main`'s return value: 1 for missing environment variables, missing
      Telegram variables outside a dry run, a missing config directory or a
      config that fails to load, 130 on Ctrl-C, 1 on any other exception,
      and otherwise the summary's exit status. */
  function MainExitStatus(envMissing: bool, dryRun: bool, telegramMissing: bool, configDirExists: bool,
                          configLoaded: bool, run: RunEnd): (code: int)
    ensures code == 0 || code == 1 || code == 130
    ensures code == 130 <==> !envMissing && (dryRun || !telegramMissing) && configDirExists && configLoaded && run.Interrupted?
    ensures code == 0 <==>
              !envMissing && (dryRun || !telegramMissing) && configDirExists && configLoaded
              && run.Finished? && ExitStatus(run.errors, run.buys, run.sells) == 0
  {
    if envMissing then 1
    else if !dryRun && telegramMissing then 1
    else if !configDirExists then 1
    else if !configLoaded then 1
    else
      match run
      case Finished(errors, buys, sells) => ExitStatus(errors, buys, sells)
      case Interrupted => 130
      case Crashed => 1
  }
}
