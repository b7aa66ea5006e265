/** `scripts/gems_worker.py`: the scheduled gem scan. It reads the chat,
    language and subreddit filter from the environment, runs the gem finder
    with fixed settings and posts the summary (or a "no gems" text, or the
    error) to Telegram, truncated to the message limit. The Reddit fetch,
    the quote lookups, the finder's exceptions and the outcome of each
    Telegram post are inputs. */
module GemsWorker {
  import opened Wrappers
  import opened Text
  import RedditScanner
  import GemFinder

  // ---------------------------------------------------------------------------
  // Message truncation

  /** The longest text sent, below Telegram's 4096-character limit. */
  const MaxText: nat := 4000

  /** What `send_telegram_message` posts: a text over 4000 characters is cut
      to its first 3997 followed by "...". */
  function Truncate(text: string): (r: string)
    ensures |r| <= MaxText
    ensures |text| <= MaxText ==> r == text
    ensures |text| > MaxText ==> |r| == MaxText && r[..MaxText - 3] == text[..MaxText - 3] && r[MaxText - 3..] == "..."
  {
    if |text| > MaxText then text[..MaxText - 3] + "..." else text
  }

  /** A posted text is posted unchanged when it is truncated again. */
  lemma TruncateIdempotent(text: string)
    ensures Truncate(Truncate(text)) == Truncate(text)
  {
  }

  /** Truncation keeps a prefix of the text: all of it, or all but the
      last three posted characters. */
  lemma TruncatePrefix(text: string)
    ensures var r := Truncate(text);
      (r == text) || (|r| == MaxText && r[..|r| - 3] == text[..|r| - 3])
  {
  }

  // ---------------------------------------------------------------------------
  // Environment

  /** `CHAT_ID`, `LANG` and `SUBREDDIT`; `None` when unset. */
  datatype Env = Env(chatId: Option<string>, lang: Option<string>, subreddit: Option<string>)

  /** `os.environ.get(name, default).lower()`. */
  function LoweredOr(v: Option<string>, default: string): string
  {
    Lower(if v.Some? then v.value else default)
  }

  /** The subreddits to scan for a lower-cased filter; `None` scans the
      finder's default list. */
  function SubredditsFor(filter: string): (r: Option<seq<string>>)
    ensures r.Some? <==> filter in {"wsb", "pennys", "squeeze"}
    ensures r.Some? ==> r.value != []
  {
    if filter == "wsb" then Some(["wallstreetbets"])
    else if filter == "pennys" then Some(["pennystocks", "RobinHoodPennyStocks"])
    else if filter == "squeeze" then Some(["Shortsqueeze", "squeezeplays"])
    else None
  }

  /** The subreddits chosen by the `SUBREDDIT` variable (empty when unset). */
  function Subreddits(env: Env): Option<seq<string>>
  {
    SubredditsFor(LoweredOr(env.subreddit, ""))
  }

  /** The filter ignores case: an upper-cased filter selects the same
      subreddits. */
  lemma SubredditsIgnoreCase(filter: string)
    ensures Subreddits(Env(None, None, Some(Upper(filter)))) == Subreddits(Env(None, None, Some(filter)))
  {
    LowerOfUpper(filter);
  }

  /** An unset filter scans the default subreddits. */
  lemma NoFilterScansAll(env: Env)
    requires env.subreddit.None?
    ensures Subreddits(env).None?
  {
    assert Lower("") == "";
  }

  // ---------------------------------------------------------------------------
  // The scan

  /** The finder as the worker builds it: a $2B cap, prices from 0.10 to
      50.00 and the finder's default spike threshold. */
  const WorkerConfig := GemFinder.Config(2000000000.0, 0.10, 50.00, 1.5)

  /** At most five gems, without a volume-spike requirement. */
  const GemLimit: int := 5
  const RequireSpike := false

  const NoGemsEnglish: string :=
    "🔍 *GEM SCANNER*\n\nNo gems found at the moment. The scanner looks for:\n• Small cap stocks (< $2B)\n• Multiple Reddit mentions\n• Unusual volume activity\n\nTry again later or check r/pennystocks manually."
  const NoGemsGerman: string :=
    "🔍 *GEM SCANNER*\n\nKeine Gems gefunden im Moment. Der Scanner sucht nach:\n• Small Cap Aktien (< $2B)\n• Mehrere Reddit Erwähnungen\n• Ungewöhnliche Volumen-Aktivität\n\nVersuch es später nochmal oder check r/pennystocks manuell."

  /** The "no gems" text: English for `en`, German for any other language. */
  function NoGemsText(lang: string): (r: string)
    ensures r == NoGemsEnglish <==> lang == "en"
  {
    if lang == "en" then NoGemsEnglish else NoGemsGerman
  }

  /** The error post: the first 200 characters of the exception text in
      backticks. */
  const ErrorHeading: string := "❌ GEM Scanner Error:\n\n`"

  function ErrorText(error: string): (r: string)
    ensures var n := if |error| <= 200 then |error| else 200;
      && |r| == |ErrorHeading| + n + 1
      && r[..|ErrorHeading|] == ErrorHeading
      && r[|ErrorHeading|..|r| - 1] == error[..n]
      && r[|r| - 1] == '`'
    ensures |r| <= 226
  {
    ErrorHeading + Take(error, 200) + "`"
  }

  /** An error post always fits, so it is posted in full. */
  lemma ErrorNotTruncated(error: string)
    ensures Truncate(ErrorText(error)) == ErrorText(error)
  {
  }

  /** What the scan reports when it finds gems: the summary lines rendered
      by `format_gems_summary` in the chosen language. */
  function SummaryText(gems: seq<GemFinder.GemStock>, lang: string,
                       render: (seq<GemFinder.SummaryLine>, string) -> string): string
  {
    render(GemFinder.FormatGemsSummary(gems), lang)
  }

  /** The gems of one scan with the worker's settings. */
  function Gems(mentions: seq<RedditScanner.Mention>, quotes: seq<Option<GemFinder.Quote>>): seq<GemFinder.GemStock>
    requires |quotes| == |RedditScanner.Aggregate(mentions, 2)|
  {
    var os := GemFinder.Outcomes(RedditScanner.Aggregate(mentions, 2), quotes, WorkerConfig);
    GemFinder.Ranked(GemFinder.Collected(os, WorkerConfig, RequireSpike, GemLimit), GemLimit)
  }

  /** The raise that ends one scan with the worker's settings, if any. */
  function ScanRaised(mentions: seq<RedditScanner.Mention>, quotes: seq<Option<GemFinder.Quote>>)
    : Option<GemFinder.Uncomparable>
    requires |quotes| == |RedditScanner.Aggregate(mentions, 2)|
  {
    var os := GemFinder.Outcomes(RedditScanner.Aggregate(mentions, 2), quotes, WorkerConfig);
    GemFinder.Raised(os, WorkerConfig, RequireSpike, GemLimit)
  }

  /** `str(e)` for the TypeError of a None price or cap in the worker's
      finder, whose minimum price is the float 0.10 and whose cap is the
      int 2_000_000_000. */
  function ComparisonErrorText(e: GemFinder.Uncomparable): string
  {
    match e
    case PriceIsNone => "'<' not supported between instances of 'NoneType' and 'float'"
    case CapIsNone => "'>' not supported between instances of 'NoneType' and 'int'"
  }

  /** The message of a scan that did not raise. */
  function ScanMessage(gems: seq<GemFinder.GemStock>, lang: string,
                       render: (seq<GemFinder.SummaryLine>, string) -> string): string
  {
    if gems != [] then SummaryText(gems, lang, render) else NoGemsText(lang)
  }

  /** The texts posted for a scan's message: the message, then the error
      post when posting the message raised. */
  function Posts(message: string, send: Result<bool, string>): (r: seq<string>)
    ensures |r| == (if send.Err? then 2 else 1) && r[0] == Truncate(message)
    ensures forall k :: 0 <= k < |r| ==> |r[k]| <= MaxText
  {
    if send.Err? then [Truncate(message), ErrorText(send.error)] else [Truncate(message)]
  }

  /** The part of `main` after the scan: pick the message, post it and map
      the post's outcome to the exit status. */
  method PostScan(gems: seq<GemFinder.GemStock>, lang: string,
                  render: (seq<GemFinder.SummaryLine>, string) -> string,
                  send: Result<bool, string>)
    returns (status: int, posted: seq<string>)
    ensures status == 0 <==> send == Ok(true)
    ensures status == 0 || status == 1
    ensures posted == Posts(ScanMessage(gems, lang, render), send)
  {
    var message;
    if gems != [] {
      message := SummaryText(gems, lang, render);
    } else {
      message := NoGemsText(lang);
    }
    posted := [Truncate(message)];
    match send {
      case Ok(ok) =>
        status := if ok then 0 else 1;
      case Err(e) =>
        ErrorNotTruncated(e);
        posted := posted + [Truncate(ErrorText(e))];
        status := 1;
    }
  }

  /** `main`. `fetch` is the Reddit fetch for a subreddit choice, `quotes`
      the lookup of each candidate, `scanError` an exception raised by the
      finder outside validation (a None price or cap is computed here), and
      `send` the outcome of the first post: `Ok(response.ok)`
      or `Err` when posting raised. `posted` lists the texts handed to
      Telegram. A raising error post ends the process with status 1 like the
      return does. */
  method RunWorker(env: Env, fetch: Option<seq<string>> -> seq<RedditScanner.Mention>,
                   quotes: seq<Option<GemFinder.Quote>>, scanError: Option<string>,
                   render: (seq<GemFinder.SummaryLine>, string) -> string,
                   send: Result<bool, string>)
    returns (status: int, posted: seq<string>)
    requires |quotes| == |RedditScanner.Aggregate(fetch(Subreddits(env)), 2)|
    ensures status == 0 || status == 1
    ensures status == 0 <==> env.chatId.Some? && env.chatId.value != [] && scanError.None?
                             && ScanRaised(fetch(Subreddits(env)), quotes).None? && send == Ok(true)
    ensures env.chatId.None? || env.chatId.value == [] ==> posted == []
    ensures env.chatId.Some? && env.chatId.value != [] && scanError.Some? ==>
      posted == [ErrorText(scanError.value)]
    ensures env.chatId.Some? && env.chatId.value != [] && scanError.None?
            && ScanRaised(fetch(Subreddits(env)), quotes).Some? ==>
      posted == [ErrorText(ComparisonErrorText(ScanRaised(fetch(Subreddits(env)), quotes).value))]
    ensures env.chatId.Some? && env.chatId.value != [] && scanError.None?
            && ScanRaised(fetch(Subreddits(env)), quotes).None? ==>
      posted == Posts(ScanMessage(Gems(fetch(Subreddits(env)), quotes), LoweredOr(env.lang, "de"), render), send)
  {
    if env.chatId.None? || env.chatId.value == [] {
      return 1, [];
    }
    var lang := LoweredOr(env.lang, "de");
    var subreddits := Subreddits(env);
    if scanError.Some? {
      ErrorNotTruncated(scanError.value);
      return 1, [Truncate(ErrorText(scanError.value))];
    }
    var mentions := fetch(subreddits);
    var gems := GemFinder.FindGems(mentions, quotes, WorkerConfig, GemLimit, RequireSpike);
    if gems.Err? {
      var text := ErrorText(ComparisonErrorText(gems.error));
      ErrorNotTruncated(ComparisonErrorText(gems.error));
      return 1, [Truncate(text)];
    }
    status, posted := PostScan(gems.value, lang, render, send);
  }
}
