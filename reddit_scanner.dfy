/** `src/scanner/reddit_scanner.py`: ticker extraction from post text, the
    keyword sentiment of a title, and the aggregation of mentions into
    candidates ranked by momentum. Fetching posts (PRAW or the public JSON
    API) is not modelled; the mentions are the input. */
module RedditScanner {
  import opened Wrappers
  import opened Text
  import Sorting

  // ---------------------------------------------------------------------------
  // Ticker extraction

  /** Words that look like tickers but are not. */
  const Blacklist: set<string> := {
    "I", "A", "BE", "BY", "DO", "GO", "HE", "IF", "IN", "IS", "IT", "ME", "MY",
    "NO", "OF", "OK", "ON", "OR", "SO", "TO", "UP", "US", "WE", "AM", "AN", "AS",
    "AT", "CEO", "CFO", "CTO", "DD", "EPS", "ETF", "FDA", "FUD", "GDP", "IMO",
    "IPO", "ITM", "IV", "LOL", "MACD", "NYSE", "OTM", "PE", "PM", "PT", "RSI",
    "SEC", "USA", "USD", "WSB", "YOLO", "FOR", "THE", "AND", "BUT", "NOT", "YOU",
    "ALL", "CAN", "HER", "WAS", "ONE", "OUR", "OUT", "ARE", "HAS", "HIS", "HOW",
    "ITS", "MAY", "NEW", "NOW", "OLD", "SEE", "WAY", "WHO", "BOY", "DID", "GET",
    "HIM", "LET", "PUT", "SAY", "SHE", "TOO", "USE", "OMG", "WTF", "BTW",
    "EDIT", "TLDR", "AMA", "TIL", "PSA", "FOMO", "HODL", "ATH", "ATL", "ETA",
    "JUST", "LIKE", "THIS", "THAT", "WITH", "FROM", "HAVE", "BEEN", "WILL",
    "WHAT", "WHEN", "YOUR", "THAN", "THEN", "THEM", "THEY", "SOME", "INTO",
    "ONLY", "OVER", "SUCH", "TAKE", "COME", "MADE", "FIND", "LONG", "DOWN",
    "CALL", "VERY", "AFTER", "MOST", "ALSO", "WEEK", "TIME",
    "THESE", "KNOW", "MAKE", "BACK", "YEAR", "WELL", "EVEN", "GOOD",
    "ANY", "BEST", "FYI", "IDK", "NFT", "AI", "UK", "EU", "TX", "CA", "NY"
  }

  /** The regex class `\w` on the Latin-1 range (`c.isalnum() or c == '_'`);
      characters beyond Latin-1 count as non-word characters. */
  predicate IsWordChar(c: char)
  {
    var n := c as int;
    IsAsciiUpper(c) || IsAsciiLower(c) || IsDigit(c) || c == '_'
    || n == 0xaa || n == 0xb2 || n == 0xb3 || n == 0xb5 || n == 0xb9 || n == 0xba
    || 0xbc <= n <= 0xbe || (0xc0 <= n <= 0xff && n != 0xd7 && n != 0xf7)
  }

  /** `\b` at position `i`: a word character on exactly one side. */
  predicate Boundary(u: string, i: nat)
    requires i <= |u|
  {
    (i > 0 && IsWordChar(u[i - 1])) != (i < |u| && IsWordChar(u[i]))
  }

  /** A ticker: a whole word of one to five capitals `A`-`Z`. */
  predicate IsTickerSpan(u: string, i: int, j: int)
  {
    && 0 <= i < j <= |u| && j - i <= 5
    && (forall k :: i <= k < j ==> IsAsciiUpper(u[k]))
    && (i == 0 || !IsWordChar(u[i - 1]))
    && (j == |u| || !IsWordChar(u[j]))
  }

  /** The number of capitals `A`-`Z` starting at `s`. */
  function UpperRun(u: string, s: nat): (r: nat)
    requires s <= |u|
    ensures s + r <= |u|
    ensures forall k :: s <= k < s + r ==> IsAsciiUpper(u[k])
    ensures s + r == |u| || !IsAsciiUpper(u[s + r])
    decreases |u| - s
  {
    if s < |u| && IsAsciiUpper(u[s]) then 1 + UpperRun(u, s + 1) else 0
  }

  /** `[A-Z]{1,k}\b` at `s` after the greedy quantifier took `k` capitals:
      give one back at a time until a boundary follows. */
  function Greedy(u: string, s: nat, k: nat): (r: Option<nat>)
    requires s + k <= |u|
    ensures r.Some? ==> 1 <= r.value <= k
  {
    if k == 0 then None
    else if Boundary(u, s + k) then Some(k)
    else Greedy(u, s, k - 1)
  }

  function Min(a: nat, b: nat): nat { if a <= b then a else b }

  /** Giving capitals back never reaches a boundary inside the run. */
  lemma {:induction false} GreedyInsideRun(u: string, s: nat, k: nat)
    requires s <= |u| && k < UpperRun(u, s)
    ensures Greedy(u, s, k) == None
  {
    if k > 0 {
      assert IsAsciiUpper(u[s + k - 1]) && IsAsciiUpper(u[s + k]);
      GreedyInsideRun(u, s, k - 1);
    }
  }

  /** The greedy match is the whole run of capitals, when that run has at
      most five letters and ends a word, and nothing otherwise. */
  lemma GreedyIsRun(u: string, s: nat)
    requires s <= |u|
    ensures var run := UpperRun(u, s);
      Greedy(u, s, Min(5, run)) == if 1 <= run <= 5 && Boundary(u, s + run) then Some(run) else None
  {
    var run := UpperRun(u, s);
    if run <= 5 {
      if run > 0 {
        GreedyInsideRun(u, s, run - 1);
      }
    } else {
      GreedyInsideRun(u, s, 5);
    }
  }

  /** An attempt of `\b([A-Z]{1,5})\b` at `i`: the length of the capture. */
  function RawMatch(u: string, i: nat): Option<nat>
    requires i <= |u|
  {
    if Boundary(u, i) then Greedy(u, i, Min(5, UpperRun(u, i))) else None
  }

  /** An attempt of `\$([A-Z]{1,5})\b` at `i`: the length of the capture,
      which starts at `i + 1`. */
  function DollarMatch(u: string, i: nat): Option<nat>
    requires i < |u|
  {
    if u[i] == '$' then Greedy(u, i + 1, Min(5, UpperRun(u, i + 1))) else None
  }

  /** A raw match is exactly a ticker word starting there. */
  lemma RawMatchIsSpan(u: string, i: nat)
    requires i <= |u|
    ensures RawMatch(u, i).Some? ==> IsTickerSpan(u, i, i + RawMatch(u, i).value)
    ensures forall j :: IsTickerSpan(u, i, j) ==> RawMatch(u, i) == Some(j - i)
  {
    RawMatchSpan(u, i);
    forall j | IsTickerSpan(u, i, j)
      ensures RawMatch(u, i) == Some(j - i)
    {
      RawMatchAt(u, i, j);
    }
  }

  /** A raw match is a ticker word. */
  lemma RawMatchSpan(u: string, i: nat)
    requires i <= |u|
    ensures RawMatch(u, i).Some? ==> IsTickerSpan(u, i, i + RawMatch(u, i).value)
  {
    GreedyIsRun(u, i);
    var run := UpperRun(u, i);
    if RawMatch(u, i).Some? {
      assert IsAsciiUpper(u[i + run - 1]);
    }
  }

  /** A ticker word is matched whole. */
  lemma RawMatchAt(u: string, i: nat, j: nat)
    requires IsTickerSpan(u, i, j)
    ensures RawMatch(u, i) == Some(j - i)
  {
    GreedyIsRun(u, i);
    assert IsAsciiUpper(u[j - 1]);
  }

  /** `re.findall(r'\b([A-Z]{1,5})\b', u[i:])` continued from position `i`. */
  function RawTickers(u: string, i: nat): seq<string>
    requires i <= |u|
    decreases |u| - i
  {
    if i == |u| then []
    else match RawMatch(u, i)
      case Some(k) => [u[i..i + k]] + RawTickers(u, i + k)
      case None => RawTickers(u, i + 1)
  }

  /** `re.findall(r'\$([A-Z]{1,5})\b', u[i:])` continued from position `i`. */
  function DollarTickers(u: string, i: nat): seq<string>
    requires i <= |u|
    decreases |u| - i
  {
    if i == |u| then []
    else match DollarMatch(u, i)
      case Some(k) => [u[i + 1..i + 1 + k]] + DollarTickers(u, i + 1 + k)
      case None => DollarTickers(u, i + 1)
  }

  /** The raw scan finds exactly the ticker words that start at or after `p`:
      a match ends before any later word begins, so none is skipped. */
  lemma RawTickersSpans(u: string, p: nat)
    requires p <= |u|
    ensures forall t :: t in RawTickers(u, p) <==>
              exists i, j :: p <= i && IsTickerSpan(u, i, j) && u[i..j] == t
  {
    RawTickersSound(u, p);
    forall t | exists i, j :: p <= i && IsTickerSpan(u, i, j) && u[i..j] == t
      ensures t in RawTickers(u, p)
    {
      var i, j :| p <= i && IsTickerSpan(u, i, j) && u[i..j] == t;
      RawTickersComplete(u, p, i, j);
    }
  }

  lemma RawStep(u: string, p: nat, k: nat)
    requires p < |u| && RawMatch(u, p) == Some(k)
    ensures RawTickers(u, p) == [u[p..p + k]] + RawTickers(u, p + k)
  {
  }

  lemma RawSkip(u: string, p: nat)
    requires p < |u| && RawMatch(u, p).None?
    ensures RawTickers(u, p) == RawTickers(u, p + 1)
  {
  }

  /** Every raw match is a ticker word at or after `p`. */
  lemma {:induction false} RawTickersSound(u: string, p: nat)
    requires p <= |u|
    ensures forall t :: t in RawTickers(u, p) ==>
              exists i, j :: p <= i && IsTickerSpan(u, i, j) && u[i..j] == t
    decreases |u| - p
  {
    if p < |u| {
      RawMatchIsSpan(u, p);
      match RawMatch(u, p)
      case Some(k) =>
        RawTickersSound(u, p + k);
        assert IsTickerSpan(u, p, p + k);
      case None =>
        RawTickersSound(u, p + 1);
    }
  }

  /** Two ticker words do not overlap: the earlier ends before the later
      begins. */
  lemma SpanEndsBefore(u: string, p: nat, e: nat, i: nat, j: nat)
    requires IsTickerSpan(u, p, e) && IsTickerSpan(u, i, j) && p < i
    ensures e <= i
  {
    assert !IsWordChar(u[i - 1]);
  }

  /** Every ticker word at or after `p` is found by the raw scan. */
  lemma {:induction false} RawTickersComplete(u: string, p: nat, i: nat, j: nat)
    requires p <= i && IsTickerSpan(u, i, j)
    ensures u[i..j] in RawTickers(u, p)
    decreases |u| - p
  {
    if p == i {
      RawFound(u, i, j);
    } else {
      match RawMatch(u, p)
      case Some(k) =>
        RawMatchSpan(u, p);
        SpanEndsBefore(u, p, p + k, i, j);
        RawTickersComplete(u, p + k, i, j);
        assert p < i <= |u|;
        RawKeep(u, p, k, u[i..j]);
      case None =>
        RawTickersComplete(u, p + 1, i, j);
        RawSkip(u, p);
    }
  }

  lemma RawFound(u: string, i: nat, j: nat)
    requires IsTickerSpan(u, i, j)
    ensures u[i..j] in RawTickers(u, i)
  {
    RawMatchAt(u, i, j);
    RawStep(u, i, j - i);
    InFront(u[i..j], RawTickers(u, j));
  }

  lemma RawKeep(u: string, p: nat, k: nat, t: string)
    requires p < |u| && RawMatch(u, p) == Some(k) && t in RawTickers(u, p + k)
    ensures t in RawTickers(u, p)
  {
    RawStep(u, p, k);
    InBack(t, [u[p..p + k]], RawTickers(u, p + k));
  }

  lemma InFront(x: string, rest: seq<string>)
    ensures x in [x] + rest
  {
    assert ([x] + rest)[0] == x;
  }

  lemma InBack(x: string, front: seq<string>, rest: seq<string>)
    requires x in rest
    ensures x in front + rest
  {
    var n :| 0 <= n < |rest| && rest[n] == x;
    assert (front + rest)[|front| + n] == x;
  }

  /** Every `$` ticker is a ticker word. */
  lemma {:induction false} DollarTickersSpans(u: string, p: nat)
    requires p <= |u|
    ensures forall t :: t in DollarTickers(u, p) ==>
              exists i, j :: IsTickerSpan(u, i, j) && u[i..j] == t
    decreases |u| - p
  {
    if p < |u| {
      match DollarMatch(u, p)
      case Some(k) =>
        GreedyIsRun(u, p + 1);
        assert IsAsciiUpper(u[p + k]);
        assert IsTickerSpan(u, p + 1, p + 1 + k);
        DollarTickersSpans(u, p + 1 + k);
      case None =>
        DollarTickersSpans(u, p + 1);
    }
  }

  /** The `$TICKER` pass finds nothing the word pass does not also find. */
  lemma DollarTickersRedundant(u: string)
    ensures forall t :: t in DollarTickers(u, 0) ==> t in RawTickers(u, 0)
  {
    DollarTickersSpans(u, 0);
    RawTickersSpans(u, 0);
  }

  /** `_extract_tickers`: both passes on the upper-cased text, blacklisted
      and one-letter words dropped, duplicates merged (`list(set(...))`, whose
      order Python leaves unspecified). */
  function ExtractTickers(text: string): set<string>
  {
    var u := Upper(text);
    set t | t in DollarTickers(u, 0) + RawTickers(u, 0) && t !in Blacklist && |t| >= 2
  }

  /** The tickers are exactly the whole words of two to five capitals of the
      upper-cased text that are not blacklisted. */
  lemma TickersAreWords(text: string, t: string)
    ensures t in ExtractTickers(text) <==>
      && 2 <= |t| && t !in Blacklist
      && exists i, j :: IsTickerSpan(Upper(text), i, j) && Upper(text)[i..j] == t
  {
    DollarTickersRedundant(Upper(text));
    RawTickersSpans(Upper(text), 0);
  }

  // ---------------------------------------------------------------------------
  // Sentiment

  datatype Sentiment = Bullish | Bearish | Neutral

  /** `_analyze_sentiment`'s bullish keywords as the source spells them. */
  const WrittenBullishKeywords: seq<string> := [
    "moon", "rocket", "\U{00f0}\U{0178}\U{0161}\U{20ac}", "buy", "long", "calls", "bullish",
    "undervalued", "gem", "hidden", "squeeze", "breakout", "tendies",
    "gains", "profit", "up", "green", "pumping", "mooning"]

  /** The rocket emoji U+1F680, whose UTF-8 bytes read as cp1252 give the
      third written keyword. */
  const Rocket: string := "\U{1F680}"

  /** The bullish keywords with the rocket emoji restored. */
  const BullishKeywords: seq<string> := WrittenBullishKeywords[2 := Rocket]

  const BearishKeywords: seq<string> := [
    "sell", "short", "puts", "bearish", "overvalued", "dump",
    "crash", "red", "loss", "down", "avoid", "scam", "fraud",
    "bag", "bagholding", "rip"]

  /** The keywords that occur in `text`, each once, in list order. */
  function KeywordsIn(text: string, keywords: seq<string>): (r: seq<string>)
    ensures |r| <= |keywords|
    ensures forall k :: k in r <==> k in keywords && Contains(text, k)
  {
    if keywords == [] then []
    else (if Contains(text, keywords[0]) then [keywords[0]] else [])
         + KeywordsIn(text, keywords[1..])
  }

  /** The title's classification: a lead of at least two keywords. */
  function Classify(bull: nat, bear: nat): Sentiment
  {
    if bull > bear + 1 then Bullish else if bear > bull + 1 then Bearish else Neutral
  }

  /** Bullish and bearish mirror each other, and a lead of at most one
      keyword is neutral. */
  lemma ClassifyBands(bull: nat, bear: nat)
    ensures Classify(bull, bear) == Bullish <==> Classify(bear, bull) == Bearish
    ensures Classify(bull, bear) == Neutral <==> -1 <= bull - bear <= 1
    ensures Classify(bull, bear) == Bullish <==> bull >= bear + 2
  {
  }

  /** The sentiment of `text` for a given bullish keyword list. */
  function SentimentWith(text: string, bullish: seq<string>): Sentiment
  {
    var t := Lower(text);
    Classify(|KeywordsIn(t, bullish)|, |KeywordsIn(t, BearishKeywords)|)
  }

  /** `_analyze_sentiment`, with the rocket keyword restored. */
  function AnalyzeSentiment(text: string): Sentiment
  {
    SentimentWith(text, BullishKeywords)
  }

  /** A title is bullish exactly when at least two more distinct bullish
      than bearish keywords occur in its lower-cased text, bearish in the
      mirrored case, and a title with no keyword at all is neutral. */
  lemma SentimentMeaning(text: string)
    ensures var bull := |KeywordsIn(Lower(text), BullishKeywords)|;
      var bear := |KeywordsIn(Lower(text), BearishKeywords)|;
      && (AnalyzeSentiment(text) == Bullish <==> bull >= bear + 2)
      && (AnalyzeSentiment(text) == Bearish <==> bear >= bull + 2)
      && (AnalyzeSentiment(text) == Neutral <==> -1 <= bull - bear <= 1)
    ensures (forall k :: k in BullishKeywords + BearishKeywords ==> !Contains(Lower(text), k)) ==>
      AnalyzeSentiment(text) == Neutral
  {
    var bull := KeywordsIn(Lower(text), BullishKeywords);
    var bear := KeywordsIn(Lower(text), BearishKeywords);
    ClassifyBands(|bull|, |bear|);
    ClassifyBands(|bear|, |bull|);
    if forall k :: k in BullishKeywords + BearishKeywords ==> !Contains(Lower(text), k) {
      NoKeywordFound(Lower(text), BullishKeywords);
      NoKeywordFound(Lower(text), BearishKeywords);
    }
  }

  /** A text holding none of the keywords finds none. */
  lemma {:induction false} NoKeywordFound(text: string, keywords: seq<string>)
    requires forall k :: k in keywords ==> !Contains(text, k)
    ensures KeywordsIn(text, keywords) == []
  {
    if keywords != [] {
      assert keywords[0] in keywords;
      NoKeywordFound(text, keywords[1..]);
    }
  }

  /** Lower-casing never produces the capital 'Ÿ'. */
  lemma LowerHasNoCapitalY(text: string, i: nat)
    requires i < |text|
    ensures Lower(text)[i] != CapitalYDiaeresis
  {
  }

  /** As written, the third bullish keyword holds 'Ÿ', which `str.lower()`
      turns into 'ÿ': it never occurs in the lower-cased text, so it never
      counts. */
  lemma MojibakeKeywordNeverMatches(text: string)
    ensures WrittenBullishKeywords[2] !in KeywordsIn(Lower(text), WrittenBullishKeywords)
  {
    var kw := WrittenBullishKeywords[2];
    if Contains(Lower(text), kw) {
      var r := Find(Lower(text), kw);
      assert Lower(text)[r..r + |kw|] == kw;
      assert Lower(text)[r + 1] == kw[1] == CapitalYDiaeresis;
      LowerHasNoCapitalY(text, r + 1);
    }
  }

  /** With the emoji restored, a text holding a rocket counts it. */
  lemma RocketKeywordMatches(text: string)
    requires Contains(text, Rocket)
    ensures Rocket in KeywordsIn(Lower(text), BullishKeywords)
  {
    var r := Find(text, Rocket);
    assert BullishKeywords[2] == Rocket;
    assert text[r..r + 1] == Rocket;
    assert Lower(text)[r..r + 1] == Rocket;
    ContainsAt(Lower(text), Rocket, r);
  }

  // ---------------------------------------------------------------------------
  // Aggregation

  /** A `TickerMention`; its time stamp and URL play no part here. */
  datatype Mention = Mention(
    ticker: string,
    title: string,
    subreddit: string,
    score: int,
    numComments: int,
    sentiment: Sentiment)

  /** One entry of `ticker_data`. */
  datatype TickerData = TickerData(
    mentions: seq<Mention>,
    subreddits: set<string>,
    totalScore: int,
    totalComments: int,
    sentiments: seq<Sentiment>,
    samplePosts: seq<string>)

  /** A `GemCandidate`; `list(subreddits)` has no defined order in Python,
      so the subreddits are a set. */
  datatype GemCandidate = GemCandidate(
    ticker: string,
    mentionCount: nat,
    totalScore: int,
    totalComments: int,
    subreddits: set<string>,
    avgSentiment: Sentiment,
    momentum: real,
    samplePosts: seq<string>)

  const SampleSize: nat := 3

  const NoData := TickerData([], {}, 0, 0, [], [])

  /** One pass of the loop body on an entry. */
  function Record(data: TickerData, m: Mention): TickerData
  {
    data.(mentions := data.mentions + [m],
          subreddits := data.subreddits + {m.subreddit},
          totalScore := data.totalScore + m.score,
          totalComments := data.totalComments + m.numComments,
          sentiments := data.sentiments + [m.sentiment],
          samplePosts := if |data.samplePosts| < SampleSize then data.samplePosts + [m.title]
                         else data.samplePosts)
  }

  /** `ticker_data` after the loop over `ms`, with its keys in insertion
      order (the order `dict.items()` gives them back). */
  function Collect(ms: seq<Mention>): (map<string, TickerData>, seq<string>)
  {
    if ms == [] then (map[], [])
    else
      var m := ms[|ms| - 1];
      var (data, order) := Collect(ms[..|ms| - 1]);
      if m.ticker in data then (data[m.ticker := Record(data[m.ticker], m)], order)
      else (data[m.ticker := Record(NoData, m)], order + [m.ticker])
  }

  /** The mentions of ticker `t`, in order. */
  function OfTicker(ms: seq<Mention>, t: string): (r: seq<Mention>)
    ensures forall m :: m in r <==> m in ms && m.ticker == t
  {
    if ms == [] then []
    else
      var m := ms[|ms| - 1];
      assert ms == ms[..|ms| - 1] + [m];
      OfTicker(ms[..|ms| - 1], t) + if m.ticker == t then [m] else []
  }

  function TotalScore(ms: seq<Mention>): int
  {
    if ms == [] then 0 else TotalScore(ms[..|ms| - 1]) + ms[|ms| - 1].score
  }

  function TotalComments(ms: seq<Mention>): int
  {
    if ms == [] then 0 else TotalComments(ms[..|ms| - 1]) + ms[|ms| - 1].numComments
  }

  function Subreddits(ms: seq<Mention>): set<string>
  {
    set m | m in ms :: m.subreddit
  }

  function Sentiments(ms: seq<Mention>): (r: seq<Sentiment>)
    ensures |r| == |ms|
  {
    seq(|ms|, i requires 0 <= i < |ms| => ms[i].sentiment)
  }

  function Titles(ms: seq<Mention>): (r: seq<string>)
    ensures |r| == |ms|
  {
    seq(|ms|, i requires 0 <= i < |ms| => ms[i].title)
  }

  /** At most the first `n` elements. */
  function FirstN<T>(xs: seq<T>, n: nat): (r: seq<T>)
    ensures |r| <= n && |r| <= |xs| && r == xs[..|r|]
    ensures |xs| <= n ==> r == xs
  {
    if |xs| <= n then xs else xs[..n]
  }

  /** The entry the loop would build for exactly the mentions `fs`: a
      reference definition that does not follow the loop. */
  function DataOf(fs: seq<Mention>): TickerData
  {
    TickerData(fs, Subreddits(fs), TotalScore(fs), TotalComments(fs), Sentiments(fs),
               FirstN(Titles(fs), SampleSize))
  }

  /** Recording one more mention extends the reference entry. */
  lemma DataOfSnoc(fs: seq<Mention>, m: Mention)
    ensures DataOf(fs + [m]) == Record(DataOf(fs), m)
  {
    var gs := fs + [m];
    assert gs[..|gs| - 1] == fs;
    assert Subreddits(gs) == Subreddits(fs) + {m.subreddit} by {
      forall s | s in Subreddits(gs) ensures s in Subreddits(fs) + {m.subreddit} {
        var m' :| m' in gs && m'.subreddit == s;
        if m' != m { assert m' in fs; }
      }
      assert m in gs;
    }
    assert Sentiments(gs) == Sentiments(fs) + [m.sentiment];
    assert Titles(gs) == Titles(fs) + [m.title];
  }

  /** After the loop, a ticker has an entry iff it was mentioned, and the
      keys are listed once each. */
  lemma {:induction false} CollectKeys(ms: seq<Mention>)
    ensures forall t :: t in Collect(ms).0 <==> exists m :: m in ms && m.ticker == t
    ensures forall t :: t in Collect(ms).1 <==> t in Collect(ms).0
    ensures forall i, j :: 0 <= i < j < |Collect(ms).1| ==> Collect(ms).1[i] != Collect(ms).1[j]
  {
    if ms != [] {
      var p := ms[..|ms| - 1];
      var m := ms[|ms| - 1];
      assert ms == p + [m];
      CollectKeys(p);
    }
  }

  /** After the loop, the entry of a mentioned ticker aggregates exactly its
      mentions. */
  lemma {:induction false} CollectData(ms: seq<Mention>, t: string)
    requires t in Collect(ms).0
    ensures Collect(ms).0[t] == DataOf(OfTicker(ms, t))
  {
    var p := ms[..|ms| - 1];
    var m := ms[|ms| - 1];
    var (data, order) := Collect(p);
    if t == m.ticker {
      assert OfTicker(ms, t) == OfTicker(p, t) + [m];
      if t in data {
        CollectData(p, t);
        assert Collect(ms).0[t] == Record(data[t], m);
      } else {
        CollectKeys(p);
        NoMentionsOf(p, t);
        assert Collect(ms).0[t] == Record(NoData, m);
      }
      DataOfSnoc(OfTicker(p, t), m);
    } else {
      assert OfTicker(ms, t) == OfTicker(p, t);
      assert Collect(ms).0[t] == data[t];
      CollectData(p, t);
    }
  }

  /** A ticker never mentioned has no mentions to aggregate. */
  lemma NoMentionsOf(ms: seq<Mention>, t: string)
    requires forall m :: m in ms ==> m.ticker != t
    ensures OfTicker(ms, t) == []
  {
    if OfTicker(ms, t) != [] {
      assert OfTicker(ms, t)[0] in OfTicker(ms, t);
    }
  }

  /** Counter(sentiments)[s]. */
  function CountOf(ss: seq<Sentiment>, s: Sentiment): (n: nat)
    ensures n <= |ss|
  {
    if ss == [] then 0 else (if ss[0] == s then 1 else 0) + CountOf(ss[1..], s)
  }

  /** The average sentiment: a strict majority of bullish over bearish
      titles or the reverse; neutral titles do not take part. */
  function Majority(ss: seq<Sentiment>): Sentiment
  {
    var bull := CountOf(ss, Bullish);
    var bear := CountOf(ss, Bearish);
    if bull > bear then Bullish else if bear > bull then Bearish else Neutral
  }

  /** The two directions mirror each other, and neutral titles never decide. */
  lemma {:induction false} MajorityMirror(ss: seq<Sentiment>, extra: nat)
    ensures (Majority(ss) == Bullish) == (CountOf(ss, Bullish) > CountOf(ss, Bearish))
    ensures (Majority(ss) == Neutral) == (CountOf(ss, Bullish) == CountOf(ss, Bearish))
    ensures Majority(ss + seq(extra, _ => Neutral)) == Majority(ss)
  {
    CountNeutralPadding(ss, extra, Bullish);
    CountNeutralPadding(ss, extra, Bearish);
  }

  lemma {:induction false} CountNeutralPadding(ss: seq<Sentiment>, extra: nat, s: Sentiment)
    requires s != Neutral
    ensures CountOf(ss + seq(extra, _ => Neutral), s) == CountOf(ss, s)
    decreases |ss|
  {
    if ss == [] {
      CountOfNeutrals(extra, s);
      assert ss + seq(extra, _ => Neutral) == seq(extra, _ => Neutral);
    } else {
      assert (ss + seq(extra, _ => Neutral))[1..] == ss[1..] + seq(extra, _ => Neutral);
      CountNeutralPadding(ss[1..], extra, s);
    }
  }

  lemma {:induction false} CountOfNeutrals(n: nat, s: Sentiment)
    requires s != Neutral
    ensures CountOf(seq(n, _ => Neutral), s) == 0
  {
    if n > 0 {
      assert seq(n, _ => Neutral)[1..] == seq(n - 1, _ => Neutral);
      CountOfNeutrals(n - 1, s);
    }
  }

  /** The momentum score of an entry. */
  function MomentumOf(data: TickerData): real
  {
    (|data.mentions| * 10) as real + data.totalScore as real * 0.1
    + data.totalComments as real * 0.5 + (|data.subreddits| * 20) as real
  }

  function CandidateOf(t: string, data: TickerData): GemCandidate
  {
    GemCandidate(t, |data.mentions|, data.totalScore, data.totalComments, data.subreddits,
                 Majority(data.sentiments), MomentumOf(data), data.samplePosts)
  }

  /** The candidates of the keys `order` with at least `minMentions`
      mentions, in key order. */
  function Candidates(data: map<string, TickerData>, order: seq<string>, minMentions: int): seq<GemCandidate>
    requires forall i :: 0 <= i < |order| ==> order[i] in data
  {
    if order == [] then []
    else
      var t := order[|order| - 1];
      Candidates(data, order[..|order| - 1], minMentions)
      + if |data[t].mentions| < minMentions then [] else [CandidateOf(t, data[t])]
  }

  lemma {:induction false} CandidatesMeaning(data: map<string, TickerData>, order: seq<string>, minMentions: int)
    requires forall i :: 0 <= i < |order| ==> order[i] in data
    requires forall i, j :: 0 <= i < j < |order| ==> order[i] != order[j]
    ensures forall c :: c in Candidates(data, order, minMentions) <==>
              c.ticker in order && minMentions <= |data[c.ticker].mentions|
              && c == CandidateOf(c.ticker, data[c.ticker])
    ensures Sorting.DistinctBy(Candidates(data, order, minMentions), Ticker)
  {
    if order != [] {
      var init := order[..|order| - 1];
      var t := order[|order| - 1];
      assert order == init + [t];
      CandidatesMeaning(data, init, minMentions);
      var cs := Candidates(data, init, minMentions);
      assert forall c :: c in cs ==> c.ticker in init;
      assert t !in init;
    }
  }

  function Momentum(c: GemCandidate): real { c.momentum }

  function Ticker(c: GemCandidate): string { c.ticker }

  /** The candidates in key order, before sorting. */
  function Unsorted(ms: seq<Mention>, minMentions: int): seq<GemCandidate>
  {
    CollectKeys(ms);
    Candidates(Collect(ms).0, Collect(ms).1, minMentions)
  }

  /** The candidates `aggregate_mentions` returns. */
  function Aggregate(ms: seq<Mention>, minMentions: int): seq<GemCandidate>
  {
    Sorting.SortDesc(Unsorted(ms, minMentions), Momentum)
  }

  lemma UnsortedMembers(ms: seq<Mention>, minMentions: int)
    ensures forall c :: c in Unsorted(ms, minMentions) <==>
              c.ticker in Collect(ms).0 && minMentions <= |Collect(ms).0[c.ticker].mentions|
              && c == CandidateOf(c.ticker, Collect(ms).0[c.ticker])
    ensures Sorting.DistinctBy(Unsorted(ms, minMentions), Ticker)
  {
    CollectKeys(ms);
    CandidatesMeaning(Collect(ms).0, Collect(ms).1, minMentions);
  }

  /** The fields of one candidate, in terms of the mentions of its ticker. */
  lemma CandidateAggregates(ms: seq<Mention>, minMentions: int, c: GemCandidate)
    requires c in Aggregate(ms, minMentions)
    ensures var fs := OfTicker(ms, c.ticker);
      && 1 <= c.mentionCount == |fs| && minMentions <= |fs|
      && c.totalScore == TotalScore(fs)
      && c.totalComments == TotalComments(fs)
      && c.subreddits == Subreddits(fs)
      && c.samplePosts == FirstN(Titles(fs), SampleSize)
      && c.avgSentiment == Majority(Sentiments(fs))
      && c.momentum == (|fs| * 10) as real + TotalScore(fs) as real * 0.1
                       + TotalComments(fs) as real * 0.5 + (|Subreddits(fs)| * 20) as real
  {
    Sorting.SortDescOrdered(Unsorted(ms, minMentions), Momentum);
    UnsortedMembers(ms, minMentions);
    CollectKeys(ms);
    CollectData(ms, c.ticker);
    var m :| m in ms && m.ticker == c.ticker;
    assert m in OfTicker(ms, c.ticker);
  }

  /** Each candidate aggregates all the mentions of its ticker: how many,
      the summed score and comments, the distinct subreddits, the first three
      titles, the majority sentiment and the momentum. A ticker is listed iff
      it has at least `minMentions` mentions, at most once, and the list is
      ordered by momentum, highest first. */
  lemma AggregateMeaning(ms: seq<Mention>, minMentions: int)
    ensures forall c | c in Aggregate(ms, minMentions) ::
      var fs := OfTicker(ms, c.ticker);
      && 1 <= c.mentionCount == |fs| && minMentions <= |fs|
      && c.totalScore == TotalScore(fs)
      && c.totalComments == TotalComments(fs)
      && c.subreddits == Subreddits(fs)
      && c.samplePosts == FirstN(Titles(fs), SampleSize)
      && c.avgSentiment == Majority(Sentiments(fs))
      && c.momentum == (|fs| * 10) as real + TotalScore(fs) as real * 0.1
                       + TotalComments(fs) as real * 0.5 + (|Subreddits(fs)| * 20) as real
    ensures forall t | (exists m :: m in ms && m.ticker == t) && minMentions <= |OfTicker(ms, t)| ::
      exists c :: c in Aggregate(ms, minMentions) && c.ticker == t
    ensures Sorting.DistinctBy(Aggregate(ms, minMentions), Ticker)
    ensures Sorting.Descending(Aggregate(ms, minMentions), Momentum)
  {
    var cs := Unsorted(ms, minMentions);
    Sorting.SortDescOrdered(cs, Momentum);
    UnsortedMembers(ms, minMentions);
    Sorting.SortKeepsDistinct(cs, Momentum, Ticker);
    forall c | c in Aggregate(ms, minMentions)
      ensures var fs := OfTicker(ms, c.ticker);
        && 1 <= c.mentionCount == |fs| && minMentions <= |fs|
        && c.totalScore == TotalScore(fs)
        && c.totalComments == TotalComments(fs)
        && c.subreddits == Subreddits(fs)
        && c.samplePosts == FirstN(Titles(fs), SampleSize)
        && c.avgSentiment == Majority(Sentiments(fs))
        && c.momentum == (|fs| * 10) as real + TotalScore(fs) as real * 0.1
                         + TotalComments(fs) as real * 0.5 + (|Subreddits(fs)| * 20) as real
    {
      CandidateAggregates(ms, minMentions, c);
    }
    CollectKeys(ms);
    forall t | (exists m :: m in ms && m.ticker == t) && minMentions <= |OfTicker(ms, t)|
      ensures exists c :: c in Aggregate(ms, minMentions) && c.ticker == t
    {
      CollectData(ms, t);
      assert CandidateOf(t, Collect(ms).0[t]) in cs;
    }
  }

  /** `aggregate_mentions`: the loop fills `ticker_data` one mention at a
      time, the second loop turns the entries with enough mentions into
      candidates, and these are sorted by momentum. */
  method AggregateMentions(mentions: seq<Mention>, minMentions: int) returns (candidates: seq<GemCandidate>)
    ensures candidates == Aggregate(mentions, minMentions)
  {
    var tickerData, order := CollectMentions(mentions);
    CollectKeys(mentions);
    var kept := KeepCandidates(tickerData, order, minMentions);
    candidates := Sorting.SortDesc(kept, Momentum);
  }

  /** The first loop of `aggregate_mentions`: one entry per ticker, keys in
      order of first mention. */
  method CollectMentions(mentions: seq<Mention>) returns (tickerData: map<string, TickerData>, order: seq<string>)
    ensures (tickerData, order) == Collect(mentions)
  {
    tickerData, order := map[], [];
    var i := 0;
    while i < |mentions|
      invariant 0 <= i <= |mentions|
      invariant (tickerData, order) == Collect(mentions[..i])
    {
      var m := mentions[i];
      assert mentions[..i + 1][..i] == mentions[..i];
      if m.ticker in tickerData {
        tickerData := tickerData[m.ticker := Record(tickerData[m.ticker], m)];
      } else {
        tickerData := tickerData[m.ticker := Record(NoData, m)];
        order := order + [m.ticker];
      }
      i := i + 1;
    }
    assert mentions[..i] == mentions;
  }

  /** The second loop of `aggregate_mentions`: the entries with at least
      `minMentions` mentions become candidates, in key order. */
  method KeepCandidates(tickerData: map<string, TickerData>, order: seq<string>, minMentions: int)
    returns (kept: seq<GemCandidate>)
    requires forall i :: 0 <= i < |order| ==> order[i] in tickerData
    ensures kept == Candidates(tickerData, order, minMentions)
  {
    kept := [];
    var k := 0;
    while k < |order|
      invariant 0 <= k <= |order|
      invariant kept == Candidates(tickerData, order[..k], minMentions)
    {
      var t := order[k];
      assert order[..k + 1][..k] == order[..k];
      var data := tickerData[t];
      if |data.mentions| >= minMentions {
        kept := kept + [CandidateOf(t, data)];
      }
      k := k + 1;
    }
    assert order[..k] == order;
  }
}
