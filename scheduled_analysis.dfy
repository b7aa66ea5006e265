/** `scripts/scheduled_analysis.py`: the day filter of `load_watchlist`, the
    result accounting of `run_scheduled_analysis` and the exit status of
    `main`. The clock is the parameter `today` (a lower-case weekday name),
    watchlist.yaml is the parsed list of categories, and what the analysis
    of the k-th stock did (fetch, analyse, format and send) is the oracle
    `attempt(k)`. Sleeps are recorded as waits and Telegram messages as
    notices. */
module ScheduledAnalysis {
  import opened Wrappers
  import opened Text
  import MainBot

  type Category = MainBot.Category
  type Stock = MainBot.Stock

  // ---------------------------------------------------------------------------
  // load_watchlist

  /** `[d.lower() for d in ds]`. */
  function Lowered(ds: seq<string>): (r: seq<string>)
    ensures |r| == |ds| && forall k :: 0 <= k < |ds| ==> r[k] == Lower(ds[k])
  {
    seq(|ds|, k requires 0 <= k < |ds| => Lower(ds[k]))
  }

  /** The requested days, or the current day when none are given, lower-cased. */
  function TargetDays(days: seq<string>, today: string): (targets: seq<string>)
    ensures targets != []
    ensures days == [] ==> targets == [Lower(today)]
    ensures days != [] ==> targets == Lowered(days)
    ensures days != [] ==> |targets| == |days| && forall d :: d in days ==> Lower(d) in targets
  {
    var ts := Lowered(if days == [] then [today] else days);
    assert forall k :: 0 <= k < |days| ==> Lower(days[k]) == ts[k];
    ts
  }

  /** Whether `load_watchlist` keeps a stock with this day: a demo stock
      only when "demo" is requested, otherwise a stock without a day or
      whose lower-cased day is a target. */
  predicate Selected(day: string, targets: seq<string>)
  {
    var d := Lower(day);
    !(d == "demo" && "demo" !in targets) && (d == "" || d in targets)
  }

  /** The demo test never decides on its own: a stock is selected exactly
      when it has no day or its day is a target, so a demo stock is kept
      exactly when "demo" is requested. */
  lemma SelectedMeaning(day: string, targets: seq<string>)
    ensures Selected(day, targets) <==> Lower(day) == "" || Lower(day) in targets
    ensures Lower(day) == "demo" ==> (Selected(day, targets) <==> "demo" in targets)
  {
  }

  /** The selected stocks among the first n entries of one category. */
  function SelectedIn(c: Category, targets: seq<string>, n: nat): seq<Stock>
    requires n <= |c.entries|
  {
    if n == 0 then []
    else
      SelectedIn(c, targets, n - 1)
      + (if Selected(c.entries[n - 1].day, targets) then [MainBot.Tag(c.entries[n - 1], c.name)] else [])
  }

  /** The selected stocks of a list of categories, in file order. */
  function Watchlist(data: seq<Category>, targets: seq<string>): seq<Stock>
  {
    if data == [] then []
    else
      var last := data[|data| - 1];
      Watchlist(data[..|data| - 1], targets) + SelectedIn(last, targets, |last.entries|)
  }

  /** `load_watchlist`: every selected stock of every category, in file
      order, tagged with its category. */
  method LoadWatchlist(data: seq<Category>, days: seq<string>, today: string) returns (stocks: seq<Stock>)
    ensures stocks == Watchlist(data, TargetDays(days, today))
  {
    var targets := TargetDays(days, today);
    stocks := [];
    var i := 0;
    while i < |data|
      invariant 0 <= i <= |data|
      invariant stocks == Watchlist(data[..i], targets)
    {
      stocks := AddCategory(stocks, data[i], targets);
      WatchlistNext(data, targets, i);
      i := i + 1;
    }
    assert data[..|data|] == data;
  }

  /** The inner loop of `load_watchlist`: the selected stocks of one
      category appended to those found so far. */
  method AddCategory(found: seq<Stock>, category: Category, targets: seq<string>) returns (stocks: seq<Stock>)
    ensures stocks == found + SelectedIn(category, targets, |category.entries|)
  {
    stocks := found;
    var j := 0;
    while j < |category.entries|
      invariant 0 <= j <= |category.entries|
      invariant stocks == found + SelectedIn(category, targets, j)
    {
      var entry := category.entries[j];
      var stockDay := Lower(entry.day);
      if stockDay == "demo" && "demo" !in targets {
        j := j + 1;
        continue;
      }
      if stockDay == "" || stockDay in targets {
        stocks := stocks + [MainBot.Tag(entry, category.name)];
      }
      j := j + 1;
    }
  }

  lemma WatchlistNext(data: seq<Category>, targets: seq<string>, i: nat)
    requires i < |data|
    ensures Watchlist(data[..i + 1], targets)
            == Watchlist(data[..i], targets) + SelectedIn(data[i], targets, |data[i].entries|)
  {
    assert data[..i + 1][..i] == data[..i];
  }

  lemma {:induction false} SelectedInSound(c: Category, targets: seq<string>, n: nat, s: Stock)
    requires n <= |c.entries|
    requires s in SelectedIn(c, targets, n)
    ensures s.category == c.name && MainBot.Entry(s.symbol, s.name, s.day) in c.entries
    ensures Selected(s.day, targets)
  {
    if s !in SelectedIn(c, targets, n - 1) {
      assert s == MainBot.Tag(c.entries[n - 1], c.name);
    } else {
      SelectedInSound(c, targets, n - 1, s);
    }
  }

  /** Every stock of the watchlist is an entry of one of the categories,
      tagged with that category's name, and its day passes the filter. */
  lemma {:induction false} WatchlistSound(data: seq<Category>, targets: seq<string>, s: Stock)
    requires s in Watchlist(data, targets)
    ensures exists i :: 0 <= i < |data| && data[i].name == s.category && MainBot.Entry(s.symbol, s.name, s.day) in data[i].entries
    ensures Selected(s.day, targets)
  {
    var front := data[..|data| - 1];
    var last := data[|data| - 1];
    if s in Watchlist(front, targets) {
      WatchlistSound(front, targets, s);
      var i :| 0 <= i < |front| && front[i].name == s.category && MainBot.Entry(s.symbol, s.name, s.day) in front[i].entries;
      assert data[i] == front[i];
    } else {
      SelectedInSound(last, targets, |last.entries|, s);
    }
  }

  lemma {:induction false} SelectedInComplete(c: Category, targets: seq<string>, n: nat, j: nat)
    requires j < n <= |c.entries|
    requires Selected(c.entries[j].day, targets)
    ensures MainBot.Tag(c.entries[j], c.name) in SelectedIn(c, targets, n)
  {
    if j < n - 1 {
      SelectedInComplete(c, targets, n - 1, j);
    }
  }

  /** Conversely every entry whose day passes the filter is in the
      watchlist, tagged with its category. */
  lemma {:induction false} WatchlistComplete(data: seq<Category>, targets: seq<string>, i: nat, j: nat)
    requires i < |data| && j < |data[i].entries|
    requires Selected(data[i].entries[j].day, targets)
    ensures MainBot.Tag(data[i].entries[j], data[i].name) in Watchlist(data, targets)
  {
    var front := data[..|data| - 1];
    if i < |data| - 1 {
      assert front[i] == data[i];
      WatchlistComplete(front, targets, i, j);
    } else {
      SelectedInComplete(data[i], targets, |data[i].entries|, j);
    }
  }

  /** The days `--all` passes. */
  const Weekdays: seq<string> := ["monday", "tuesday", "wednesday", "thursday", "friday"]

  /** With `--all` only Monday to Friday are targets, so stocks tagged for
      the weekend or for the demo are never loaded. */
  lemma AllExcludesWeekendAndDemo(data: seq<Category>, today: string, s: Stock)
    requires s in Watchlist(data, TargetDays(Weekdays, today))
    ensures Lower(s.day) != "saturday" && Lower(s.day) != "sunday" && Lower(s.day) != "demo"
  {
    var targets := TargetDays(Weekdays, today);
    WatchlistSound(data, targets, s);
    SelectedMeaning(s.day, targets);
    WeekdayTargets(today);
    if Lower(s.day) != "" {
      NotWeekend(Lower(s.day));
    }
  }

  /** Lower-casing leaves the weekday names as they are. */
  lemma WeekdayTargets(today: string)
    ensures TargetDays(Weekdays, today) == Weekdays
  {
    LowerOfWeekday("monday");
    LowerOfWeekday("tuesday");
    LowerOfWeekday("wednesday");
    LowerOfWeekday("thursday");
    LowerOfWeekday("friday");
    assert Lowered(Weekdays) == [Lower("monday"), Lower("tuesday"), Lower("wednesday"), Lower("thursday"), Lower("friday")];
  }

  /** No weekday name is a weekend day or "demo". */
  lemma NotWeekend(d: string)
    requires d in Weekdays
    ensures d != "saturday" && d != "sunday" && d != "demo"
  {
  }

  /** A name in lower-case letters is its own lower-case form. */
  lemma LowerOfWeekday(d: string)
    requires forall c :: c in d ==> 'a' <= c <= 'z'
    ensures Lower(d) == d
  {
    forall k | 0 <= k < |d| ensures Lower(d)[k] == d[k] {
      assert d[k] in d;
    }
  }

  // ---------------------------------------------------------------------------
  // run_scheduled_analysis

  /** What the `try` block did for one stock: it ran to the end, or raised
      an exception with this text. */
  datatype Attempt = Completed | Raised(message: string)

  /** The Telegram messages the run sends; their text is not modelled
      beyond the values interpolated into it. */
  datatype Notice =
    | Started(total: nat)
    | Report(symbol: string)
    | ErrorNotice(symbol: string, error: string)
    | Finished(analysed: nat, total: nat, failed: nat)

  datatype Results = Results(success: seq<string>, errors: seq<string>)

  /** `str(e)[:200]`. */
  function ErrorText(message: string): (t: string)
    ensures |t| <= 200 && |t| <= |message| && t == message[..|t|]
    ensures |message| <= 200 ==> t == message
  {
    Take(message, 200)
  }

  /** The line recorded for a stock whose analysis raised. */
  function ErrorLine(symbol: string, message: string): string
  {
    symbol + ": " + ErrorText(message)
  }

  /** The results after the first n stocks. */
  function Accounted(stocks: seq<Stock>, attempt: nat -> Attempt, n: nat): Results
    requires n <= |stocks|
  {
    if n == 0 then Results([], [])
    else
      var r := Accounted(stocks, attempt, n - 1);
      var symbol := stocks[n - 1].symbol;
      match attempt(n - 1)
      case Completed => Results(r.success + [symbol], r.errors)
      case Raised(m) => Results(r.success, r.errors + [ErrorLine(symbol, m)])
  }

  /** The notices for the first n stocks. */
  function StockNotices(stocks: seq<Stock>, attempt: nat -> Attempt, n: nat): seq<Notice>
    requires n <= |stocks|
  {
    if n == 0 then []
    else
      var symbol := stocks[n - 1].symbol;
      StockNotices(stocks, attempt, n - 1)
      + match attempt(n - 1)
        case Completed => [Report(symbol)]
        case Raised(m) => [ErrorNotice(symbol, ErrorText(m))]
  }

  /** The number of stocks among the first n whose analysis completed. */
  function CompletedCount(attempt: nat -> Attempt, n: nat): nat
  {
    if n == 0 then 0 else CompletedCount(attempt, n - 1) + (if attempt(n - 1).Completed? then 1 else 0)
  }

  /** Every stock lands in exactly one list: the successes are the completed
      stocks and the errors the rest, one line each of at most the symbol,
      ": " and 200 characters. */
  lemma {:induction false} AccountedCounts(stocks: seq<Stock>, attempt: nat -> Attempt, n: nat)
    requires n <= |stocks|
    ensures var r := Accounted(stocks, attempt, n);
      && |r.success| == CompletedCount(attempt, n)
      && |r.success| + |r.errors| == n
      && (forall e :: e in r.errors ==> exists k :: 0 <= k < n && |e| <= |stocks[k].symbol| + 202)
  {
    SuccessCount(stocks, attempt, n);
    ErrorsBounded(stocks, attempt, n);
  }

  lemma {:induction false} SuccessCount(stocks: seq<Stock>, attempt: nat -> Attempt, n: nat)
    requires n <= |stocks|
    ensures var r := Accounted(stocks, attempt, n);
      |r.success| == CompletedCount(attempt, n) && |r.success| + |r.errors| == n
  {
    if n > 0 {
      SuccessCount(stocks, attempt, n - 1);
      var r := Accounted(stocks, attempt, n - 1);
      var symbol := stocks[n - 1].symbol;
      if attempt(n - 1).Completed? {
        assert Accounted(stocks, attempt, n) == Results(r.success + [symbol], r.errors);
      } else {
        assert Accounted(stocks, attempt, n)
               == Results(r.success, r.errors + [ErrorLine(symbol, attempt(n - 1).message)]);
      }
    }
  }

  lemma {:induction false} ErrorsBounded(stocks: seq<Stock>, attempt: nat -> Attempt, n: nat)
    requires n <= |stocks|
    ensures forall e :: e in Accounted(stocks, attempt, n).errors ==>
              exists k :: 0 <= k < n && |e| <= |stocks[k].symbol| + 202
  {
    if n > 0 {
      ErrorsBounded(stocks, attempt, n - 1);
      var r := Accounted(stocks, attempt, n - 1);
      forall e | e in Accounted(stocks, attempt, n).errors
        ensures exists k :: 0 <= k < n && |e| <= |stocks[k].symbol| + 202
      {
        if e in r.errors {
          var k :| 0 <= k < n - 1 && |e| <= |stocks[k].symbol| + 202;
        } else {
          assert e == ErrorLine(stocks[n - 1].symbol, attempt(n - 1).message);
        }
      }
    }
  }

  /** The successes are empty and the errors are not exactly when there is
      at least one stock and every analysis raised. */
  lemma {:induction false} AllFailed(stocks: seq<Stock>, attempt: nat -> Attempt, n: nat)
    requires n <= |stocks|
    ensures var r := Accounted(stocks, attempt, n);
      r.success == [] && r.errors != [] <==> n > 0 && forall k :: 0 <= k < n ==> attempt(k).Raised?
  {
    AccountedCounts(stocks, attempt, n);
    NoneCompleted(attempt, n);
  }

  lemma {:induction false} NoneCompleted(attempt: nat -> Attempt, n: nat)
    ensures CompletedCount(attempt, n) == 0 <==> forall k :: 0 <= k < n ==> attempt(k).Raised?
  {
    if n > 0 {
      NoneCompleted(attempt, n - 1);
    }
  }

  /** What a run produced: the result lists, the waits and the notices, and
      the exception that ended it early, if any. */
  datatype RunRecord = RunRecord(results: Results, waits: seq<int>, notices: seq<Notice>, raised: Option<PyError>)

  /** `time.sleep` refuses a negative length, and the first sleep comes after
      the first stock whenever there are at least two. */
  predicate SleepRaises(stocks: seq<Stock>, delay: int)
  {
    delay < 0 && |stocks| >= 2
  }

  /** Whether messages go out: not a dry run and a non-empty chat id. */
  predicate Notifies(dryRun: bool, chatId: Option<string>)
  {
    !dryRun && chatId.Some? && chatId.value != ""
  }

  /** `run_scheduled_analysis`: the results of every stock in order, a wait
      of `delay` seconds between consecutive stocks and none after the
      last, and, when messages go out, a start notice, one notice per
      stock and a closing notice with the counts. A negative delay makes the
      first sleep raise ValueError: only the first stock is accounted and
      the closing notice is never sent. */
  method RunScheduledAnalysis(stocks: seq<Stock>, attempt: nat -> Attempt, dryRun: bool,
                              chatId: Option<string>, delay: int) returns (run: RunRecord)
    ensures run.raised.Some? <==> SleepRaises(stocks, delay)
    ensures run.raised.Some? ==> run.raised.value == ValueError
    ensures SleepRaises(stocks, delay) ==>
              && run.results == Accounted(stocks, attempt, 1)
              && run.waits == []
              && (Notifies(dryRun, chatId) ==>
                    run.notices == [Started(|stocks|)] + StockNotices(stocks, attempt, 1))
    ensures !SleepRaises(stocks, delay) ==>
              && run.results == Accounted(stocks, attempt, |stocks|)
              && |run.waits| == (if stocks == [] then 0 else |stocks| - 1)
              && (Notifies(dryRun, chatId) ==>
                    run.notices == [Started(|stocks|)] + StockNotices(stocks, attempt, |stocks|)
                                   + [Finished(|run.results.success|, |stocks|, |run.results.errors|)])
    ensures forall w :: w in run.waits ==> w == delay
    ensures !Notifies(dryRun, chatId) ==> run.notices == []
  {
    var notify := !dryRun && chatId.Some? && chatId.value != "";
    var total := |stocks|;
    var success: seq<string> := [];
    var errors: seq<string> := [];
    var waits: seq<int> := [];
    var notices: seq<Notice> := [];
    if notify {
      notices := notices + [Started(total)];
    }
    ghost var start := notices;
    var i := 0;
    while i < total
      invariant 0 <= i <= total
      invariant Results(success, errors) == Accounted(stocks, attempt, i)
      invariant |waits| == (if i == total && total > 0 then total - 1 else i)
      invariant forall w :: w in waits ==> w == delay
      invariant notify ==> notices == start + StockNotices(stocks, attempt, i)
      invariant !notify ==> notices == []
      invariant start == (if notify then [Started(total)] else [])
      invariant SleepRaises(stocks, delay) ==> i == 0
    {
      success, errors, notices := AccountStock(stocks, attempt, i, success, errors, notify, start, notices);
      if i < total - 1 {
        if delay < 0 {
          return RunRecord(Results(success, errors), waits, notices, Some(ValueError));
        }
        waits := waits + [delay];
      }
      i := i + 1;
    }
    if notify {
      notices := notices + [Finished(|success|, total, |errors|)];
    }
    run := RunRecord(Results(success, errors), waits, notices, None);
  }

  /** The body of the `try` for the i-th stock: its symbol or error line
      recorded, and its notice sent when messages go out. */
  method AccountStock(stocks: seq<Stock>, attempt: nat -> Attempt, i: nat,
                      success: seq<string>, errors: seq<string>, notify: bool,
                      ghost start: seq<Notice>, notices: seq<Notice>)
    returns (success': seq<string>, errors': seq<string>, notices': seq<Notice>)
    requires i < |stocks|
    requires Results(success, errors) == Accounted(stocks, attempt, i)
    requires notify ==> notices == start + StockNotices(stocks, attempt, i)
    ensures Results(success', errors') == Accounted(stocks, attempt, i + 1)
    ensures notify ==> notices' == start + StockNotices(stocks, attempt, i + 1)
    ensures !notify ==> notices' == notices
  {
    var symbol := stocks[i].symbol;
    success', errors', notices' := success, errors, notices;
    match attempt(i) {
      case Completed =>
        if notify {
          notices' := notices + [Report(symbol)];
        }
        success' := success + [symbol];
      case Raised(m) =>
        var error := Take(m, 200);
        errors' := errors + [symbol + ": " + error];
        if notify {
          notices' := notices + [ErrorNotice(symbol, error)];
        }
    }
  }

  // ---------------------------------------------------------------------------
  // main

  /** The command line: `--symbol`, `--all`, `--days` (absent is None). */
  datatype Args = Args(symbol: Option<string>, all: bool, days: Option<string>)

  /** Python truthiness of an optional string argument. */
  predicate Given(a: Option<string>)
  {
    a.Some? && a.value != ""
  }

  /** `[d.strip() for d in days.split(",")]`. */
  function DayList(days: string): (r: seq<string>)
    ensures r != [] && |r| == |Split(days, ",")|
    ensures forall k :: 0 <= k < |r| ==> r[k] == Strip(Split(days, ",")[k])
  {
    var parts := Split(days, ",");
    seq(|parts|, k requires 0 <= k < |parts| => Strip(parts[k]))
  }

  /** Day names without commas or surrounding blanks, joined with commas,
      read back as the same names. */
  lemma DayListRoundTrip(ds: seq<string>)
    requires ds != []
    requires forall k :: 0 <= k < |ds| ==> ',' !in ds[k]
    requires forall k :: 0 <= k < |ds| ==> ds[k] == [] || (!IsSpace(ds[k][0]) && !IsSpace(ds[k][|ds[k]| - 1]))
    ensures DayList(Join(ds, ",")) == ds
  {
    SplitJoinChar(ds, ',');
    assert Split(Join(ds, ","), ",") == ds;
    forall k | 0 <= k < |ds| ensures Strip(ds[k]) == ds[k] {
      StripNoSpaceAround(ds[k]);
    }
  }

  /** The stocks `main` analyses: the single upper-cased symbol, or the
      watchlist for Monday to Friday, for the given days, or for today. */
  method StocksFor(args: Args, data: seq<Category>, today: string) returns (stocks: seq<Stock>)
    ensures Given(args.symbol) ==>
              stocks == [MainBot.Stock(Upper(args.symbol.value), Upper(args.symbol.value), "", "")]
    ensures !Given(args.symbol) && args.all ==> stocks == Watchlist(data, TargetDays(Weekdays, today))
    ensures !Given(args.symbol) && !args.all && Given(args.days) ==>
              stocks == Watchlist(data, TargetDays(DayList(args.days.value), today))
    ensures !Given(args.symbol) && !args.all && !Given(args.days) ==>
              stocks == Watchlist(data, TargetDays([], today))
  {
    if args.symbol.Some? && args.symbol.value != "" {
      var symbol := Upper(args.symbol.value);
      stocks := [MainBot.Stock(symbol, symbol, "", "")];
    } else if args.all {
      stocks := LoadWatchlist(data, Weekdays, today);
    } else if args.days.Some? && args.days.value != "" {
      stocks := LoadWatchlist(data, DayList(args.days.value), today);
    } else {
      stocks := LoadWatchlist(data, [], today);
    }
  }

  /** `main`: 0 when nothing is scheduled; ValueError escaping from the
      run when the delay is negative and two or more stocks are selected;
      otherwise 1 exactly when nothing succeeded and something failed. */
  method ScheduledMain(args: Args, data: seq<Category>, today: string, attempt: nat -> Attempt,
                       dryRun: bool, chatId: Option<string>, delay: int) returns (r: Result<int, PyError>)
    ensures r.Err? <==> SleepRaises(Selection(args, data, today), delay)
    ensures r.Err? ==> r.error == ValueError
    ensures r.Ok? ==>
              (r.value == 1 <==>
                 var stocks := Selection(args, data, today);
                 stocks != [] && forall k :: 0 <= k < |stocks| ==> attempt(k).Raised?)
    ensures r.Ok? ==> r.value == 0 || r.value == 1
  {
    var stocks := StocksFor(args, data, today);
    if stocks == [] {
      return Ok(0);
    }
    var run := RunScheduledAnalysis(stocks, attempt, dryRun, chatId, delay);
    if run.raised.Some? {
      return Err(run.raised.value);
    }
    AllFailed(stocks, attempt, |stocks|);
    if run.results.success == [] && run.results.errors != [] {
      return Ok(1);
    }
    return Ok(0);
  }

  /** The stocks `StocksFor` selects, as a function of the arguments. */
  function Selection(args: Args, data: seq<Category>, today: string): seq<Stock>
  {
    if Given(args.symbol) then [MainBot.Stock(Upper(args.symbol.value), Upper(args.symbol.value), "", "")]
    else if args.all then Watchlist(data, TargetDays(Weekdays, today))
    else if Given(args.days) then Watchlist(data, TargetDays(DayList(args.days.value), today))
    else Watchlist(data, TargetDays([], today))
  }
}
