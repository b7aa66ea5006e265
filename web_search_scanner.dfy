/** `scripts/web_search_scanner.py`: the search focus of a category, the
    recovery of the JSON array from the search reply, the filters of
    `validate_stock`, and the selection and ranking loop of `find_gems`.
    The search reply and the yfinance `info` of each ticker are inputs. */
module WebSearchScanner {
  import opened Wrappers
  import opened Text
  import opened JsonValue
  import opened Dicts
  import Sorting
  import GeminiUtils

  // ---------------------------------------------------------------------------
  // Search

  /** The search focus a category selects. */
  datatype Focus = WsbFocus | PennyFocus | SqueezeFocus | AiFocus | BiotechFocus | TrendingFocus

  function SearchFocus(category: string): (f: Focus)
    ensures f == TrendingFocus <==> category !in {"wsb", "pennys", "squeeze", "ai", "biotech"}
  {
    if category == "wsb" then WsbFocus
    else if category == "pennys" then PennyFocus
    else if category == "squeeze" then SqueezeFocus
    else if category == "ai" then AiFocus
    else if category == "biotech" then BiotechFocus
    else TrendingFocus
  }

  /** The five named categories select five different focuses. */
  lemma SearchFocusInjective(a: string, b: string)
    requires SearchFocus(a) != TrendingFocus && SearchFocus(a) == SearchFocus(b)
    ensures a == b
  {
  }

  /** The match of `\[[\s\S]*\]`: from the first `[` to the last `]`, when
      that `]` lies after the `[`. */
  function BracketSpan(t: string): (r: Option<string>)
    ensures r.None? <==> forall i, j :: 0 <= i < j < |t| && t[i] == '[' ==> t[j] != ']'
    ensures r.Some? ==> exists a :: 0 <= a < |t| && t[a] == '[' && a + |r.value| <= |t|
                          && r.value == t[a..a + |r.value|]
                          && (forall i :: 0 <= i < a ==> t[i] != '[')
                          && (forall i :: a + |r.value| <= i < |t| ==> t[i] != ']')
    ensures r.Some? ==> |r.value| >= 2 && r.value[0] == '[' && r.value[|r.value| - 1] == ']'
  {
    var start := FindChar(t, '[');
    var end := RFindChar(t, ']');
    if start != -1 && end > start then
      var v := t[start..end + 1];
      assert v[|v| - 1] == t[end];
      assert t[start] == '[' && start + |v| <= |t| && v == t[start..start + |v|];
      Some(v)
    else
      assert forall i, j :: 0 <= i < j < |t| && t[i] == '[' ==> t[j] != ']' by {
        forall i, j | 0 <= i < j < |t| && t[i] == '[' ensures t[j] != ']' {
          assert start != -1 && start <= i;
        }
      }
      None
  }

  /** `search_trending_stocks` after the backend reply `response`: the
      decoded array if the bracket span decodes to a list, else nothing. */
  function SearchResults(decode: string -> Option<Json>, response: string): (r: seq<Json>)
    ensures r != [] ==>
              BracketSpan(response).Some? && decode(BracketSpan(response).value) == Some(JArr(r))
  {
    if response == "" then []
    else
      match BracketSpan(response)
      case None => []
      case Some(span) =>
        match decode(span)
        case Some(JArr(items)) => items
        case _ => []
  }

  /** The span runs from the first `[` to the last `]`. */
  lemma BracketSpanAt(t: string, a: nat, e: nat)
    requires a < e < |t| && t[a] == '[' && t[e] == ']'
    requires forall i :: 0 <= i < a ==> t[i] != '['
    requires forall i :: e < i < |t| ==> t[i] != ']'
    ensures BracketSpan(t) == Some(t[a..e + 1])
  {
    assert FindChar(t, '[') == a;
    assert RFindChar(t, ']') == e;
  }

  /** The span of a bracketed body between text with no `[` before it and
      no `]` after it is that bracketed body. */
  lemma BracketSpanSurrounded(before: string, body: string, after: string)
    requires '[' !in before && ']' !in after
    ensures BracketSpan(before + ("[" + body + "]") + after) == Some("[" + body + "]")
  {
    var span := "[" + body + "]";
    var t := before + span + after;
    var a := |before|;
    var e := |before| + |body| + 1;
    assert t[a..e + 1] == span;
    assert t[a] == span[0] && t[e] == span[|span| - 1];
    forall i | 0 <= i < a ensures t[i] != '[' {
      assert t[i] == before[i];
    }
    forall i | e < i < |t| ensures t[i] != ']' {
      assert t[i] == after[i - e - 1];
    }
    BracketSpanAt(t, a, e);
  }

  /** Whatever prose surrounds the array in the reply, the array is
      recovered when the prose holds no bracket facing it and the span
      decodes to a list. */
  lemma SearchResultsSurrounded(decode: string -> Option<Json>, before: string, body: string,
                                after: string, items: seq<Json>)
    requires '[' !in before && ']' !in after
    requires decode("[" + body + "]") == Some(JArr(items))
    ensures SearchResults(decode, before + ("[" + body + "]") + after) == items
  {
    BracketSpanSurrounded(before, body, after);
  }

  // ---------------------------------------------------------------------------
  // Validation

  /** The `GemFinder`-like scanner's constructor arguments. */
  datatype Config = Config(maxMarketCap: real, minPrice: real, maxPrice: real)

  const DefaultConfig := Config(2000000000.0, 0.10, 50.00)

  /** The fields of `stock.info` that `validate_stock` reads. Each numeric
      key is missing, holds None, or holds a number; for the change
      percentage and the text fields `None` is a missing key. */
  datatype Info = Info(
    regularMarketPrice: Field<real>,
    previousClose: Field<real>,
    marketCap: Field<real>,
    regularMarketVolume: Field<real>,
    averageVolume: Field<real>,
    regularMarketChangePercent: Option<real>,
    shortName: Option<string>,
    sector: Option<string>)

  /** A validated `GemStock`; description and source are the JSON values
      the search returned. */
  datatype GemStock = GemStock(
    ticker: string,
    name: string,
    description: Json,
    price: real,
    marketCap: real,
    volume: int,
    avgVolume: int,
    volumeRatio: real,
    changePct: real,
    sector: string,
    source: Json)

  /** `price`: `regularMarketPrice` when it is a non-zero number, else
      `info.get('previousClose', 0)`. */
  function PriceOf(info: Info): Option<real>
  {
    match info.regularMarketPrice
    case Present(p) => if p != 0.0 then Some(p) else GetField(info.previousClose, 0.0)
    case _ => GetField(info.previousClose, 0.0)
  }

  /** The price is a non-zero `regularMarketPrice`, else `previousClose`:
      0 when that key is missing and None when it holds None. */
  lemma PriceFallback(info: Info)
    ensures var usable := info.regularMarketPrice.Present? && info.regularMarketPrice.value != 0.0;
      && (usable ==> PriceOf(info) == Some(info.regularMarketPrice.value))
      && (!usable && info.previousClose.Missing? ==> PriceOf(info) == Some(0.0))
      && (!usable && info.previousClose.Present? ==> PriceOf(info) == Some(info.previousClose.value))
      && (PriceOf(info).None? <==> !usable && info.previousClose.Null?)
  {
  }

  /** A truthy number: not None and not zero. */
  predicate Truthy(x: Option<real>)
  {
    x.Some? && x.value != 0.0
  }

  /** `avg_volume`: the `averageVolume` field when it is a non-zero number,
      else 1. */
  function AvgVolumeOf(info: Info): (a: real)
    ensures a != 0.0
  {
    match info.averageVolume
    case Present(a) => if a != 0.0 then a else 1.0
    case _ => 1.0
  }

  /** `validate_stock`, given `stock.info` (`None` for an empty dict or a
      fetch that raised). A volume that holds None raises TypeError in
      `volume / avg_volume`, or in `int(volume)` when the average is not
      positive; the handler turns it into no gem. */
  function ValidateStock(ticker: string, description: Json, source: Json,
                         info: Option<Info>, cfg: Config): Option<GemStock>
  {
    if info.None? then None
    else
      var i := info.value;
      var price := PriceOf(i);
      var cap := GetField(i.marketCap, 0.0);
      var volume := GetField(i.regularMarketVolume, 0.0);
      var avg := AvgVolumeOf(i);
      if !Truthy(price) || price.value < cfg.minPrice || price.value > cfg.maxPrice then None
      else if !Truthy(cap) || cap.value > cfg.maxMarketCap then None
      else if volume.None? then None
      else
        var ratio := if avg > 0.0 then volume.value / avg else 1.0;
        Some(GemStock(ticker, i.shortName.GetOr(ticker), description, price.value, cap.value,
                      TruncInt(volume.value), TruncInt(avg), ratio,
                      i.regularMarketChangePercent.GetOr(0.0), i.sector.GetOr("Unknown"), source))
  }

  /** A stock passes exactly when it has a non-zero price in
      `[minPrice, maxPrice]`, a non-zero cap of at most `maxMarketCap`, and
      a volume that does not hold None; its volume ratio is today's volume
      (0 when missing) over the average, taken as 1 when the average is
      missing, None or zero, and 1.0 for a negative average. */
  lemma ValidateMeaning(ticker: string, description: Json, source: Json, info: Info, cfg: Config)
    ensures var g := ValidateStock(ticker, description, source, Some(info), cfg);
      var price := PriceOf(info);
      var cap := GetField(info.marketCap, 0.0);
      && (g.Some? <==>
            && Truthy(price) && cfg.minPrice <= price.value <= cfg.maxPrice
            && Truthy(cap) && cap.value <= cfg.maxMarketCap
            && !info.regularMarketVolume.Null?)
      && (g.Some? ==>
            var volume := if info.regularMarketVolume.Present? then info.regularMarketVolume.value else 0.0;
            var average := info.averageVolume;
            && g.value.ticker == ticker && g.value.price == price.value && g.value.marketCap == cap.value
            && (!average.Present? || average.value == 0.0 ==> g.value.volumeRatio == volume)
            && (average.Present? && average.value > 0.0 ==> g.value.volumeRatio * average.value == volume)
            && (average.Present? && average.value < 0.0 ==> g.value.volumeRatio == 1.0))
  {
  }

  // ---------------------------------------------------------------------------
  // find_gems

  /** `candidate.get('ticker', '').upper().strip()`; a candidate that is not
      an object, or whose ticker is not a string, raises AttributeError. */
  function TickerOf(candidate: Json): Result<string, PyError>
  {
    match candidate
    case JObj(fields) =>
      (match Get(fields, "ticker", JStr(""))
       case JStr(s) => Ok(Strip(Upper(s)))
       case _ => Err(AttributeError))
    case _ => Err(AttributeError)
  }

  /** A usable ticker: non-empty and at most five characters. */
  predicate UsableTicker(t: string)
  {
    t != "" && |t| <= 5
  }

  function DescriptionOf(candidate: Json): Json
    requires candidate.JObj?
  {
    Get(candidate.fields, "description", JStr(""))
  }

  function SourceOf(candidate: Json): Json
    requires candidate.JObj?
  {
    Get(candidate.fields, "source", JStr("Web Search"))
  }

  /** What one candidate does in the loop: raise, be skipped for its
      ticker, or be validated (with or without a gem). */
  datatype Outcome = Raised(error: PyError) | Skipped | Checked(gem: Option<GemStock>)

  function OutcomeOf(candidate: Json, info: Option<Info>, cfg: Config): Outcome
  {
    match TickerOf(candidate)
    case Err(e) => Raised(e)
    case Ok(t) =>
      if !UsableTicker(t) then Skipped
      else Checked(ValidateStock(t, DescriptionOf(candidate), SourceOf(candidate), info, cfg))
  }

  /** The three cases of an outcome, as the loop tests them. */
  lemma OutcomeCases(candidate: Json, info: Option<Info>, cfg: Config)
    ensures TickerOf(candidate).Err? ==> OutcomeOf(candidate, info, cfg) == Raised(TickerOf(candidate).error)
    ensures TickerOf(candidate).Ok? && !UsableTicker(TickerOf(candidate).value) ==>
              OutcomeOf(candidate, info, cfg) == Skipped
    ensures TickerOf(candidate).Ok? && UsableTicker(TickerOf(candidate).value) ==>
              OutcomeOf(candidate, info, cfg)
              == Checked(ValidateStock(TickerOf(candidate).value, DescriptionOf(candidate),
                                       SourceOf(candidate), info, cfg))
  {
  }

  /** The outcome of each candidate, with the `info` fetched for it. */
  function Outcomes(cs: seq<Json>, infos: seq<Option<Info>>, cfg: Config): (os: seq<Outcome>)
    requires |infos| == |cs|
    ensures |os| == |cs|
  {
    if cs == [] then []
    else
      var n := |cs| - 1;
      Outcomes(cs[..n], infos[..n], cfg) + [OutcomeOf(cs[n], infos[n], cfg)]
  }

  /** The `k`-th outcome is that of the `k`-th candidate. */
  lemma {:induction false} OutcomeAt(cs: seq<Json>, infos: seq<Option<Info>>, cfg: Config, k: nat)
    requires |infos| == |cs| && k < |cs|
    ensures Outcomes(cs, infos, cfg)[k] == OutcomeOf(cs[k], infos[k], cfg)
  {
    var n := |cs| - 1;
    var pre := Outcomes(cs[..n], infos[..n], cfg);
    OutcomesSnoc(cs, infos, cfg);
    if k < n {
      assert cs[..n][k] == cs[k] && infos[..n][k] == infos[k];
      OutcomeAt(cs[..n], infos[..n], cfg, k);
      SnocIndex(pre, OutcomeOf(cs[n], infos[n], cfg), k);
    } else {
      SnocIndex(pre, OutcomeOf(cs[n], infos[n], cfg), k);
    }
  }

  lemma SnocIndex(pre: seq<Outcome>, x: Outcome, k: nat)
    requires k <= |pre|
    ensures (pre + [x])[k] == if k < |pre| then pre[k] else x
  {
  }

  lemma OutcomesSnoc(cs: seq<Json>, infos: seq<Option<Info>>, cfg: Config)
    requires |infos| == |cs| && cs != []
    ensures var n := |cs| - 1;
            Outcomes(cs, infos, cfg) == Outcomes(cs[..n], infos[..n], cfg) + [OutcomeOf(cs[n], infos[n], cfg)]
  {
  }

  /** No element, or the one element. */
  function Listed<T>(o: Option<T>): (r: seq<T>)
    ensures |r| <= 1
  {
    if o.Some? then [o.value] else []
  }

  /** Every gem the candidates yield, in order, without the cap on how
      many are collected; the first candidate that raises ends the run. */
  function Validated(os: seq<Outcome>): (r: Result<seq<GemStock>, PyError>)
    ensures r.Ok? ==> |r.value| <= |os|
  {
    if os == [] then Ok([])
    else
      var n := |os| - 1;
      match Validated(os[..n])
      case Err(e) => Err(e)
      case Ok(gems) =>
        match os[n]
        case Raised(e) => Err(e)
        case Skipped => Ok(gems)
        case Checked(g) => Ok(gems + Listed(g))
  }

  function VolumeRatio(g: GemStock): real
  {
    g.volumeRatio
  }

  /** `xs[:n]` for any integer `n`; a negative `n` drops from the end. */
  function SliceTo<T>(xs: seq<T>, n: int): (r: seq<T>)
    ensures |r| <= |xs| && r == xs[..|r|]
    ensures n >= 0 ==> r == Take(xs, n)
  {
    if n >= 0 then Take(xs, n)
    else if |xs| + n <= 0 then [] else xs[..|xs| + n]
  }

  /** The loop state after some candidates: the gems so far, or the error
      that ended the run, and whether the run has stopped. */
  datatype Progress = Progress(gems: Result<seq<GemStock>, PyError>, stopped: bool)

  /** One iteration of the loop: a skipped ticker does not reach the count
      check; otherwise the gem, if any, is kept and the loop stops once
      `2 * limit` gems are kept. */
  function Step(p: Progress, o: Outcome, limit: int): Progress
  {
    if p.stopped || p.gems.Err? then p
    else
      match o
      case Raised(e) => Progress(Err(e), true)
      case Skipped => p
      case Checked(g) =>
        var gems := p.gems.value + Listed(g);
        Progress(Ok(gems), |gems| >= limit * 2)
  }

  /** The loop over the first `i` candidates. */
  function Run(os: seq<Outcome>, limit: int, i: nat): Progress
    requires i <= |os|
  {
    if i == 0 then Progress(Ok([]), false)
    else Step(Run(os, limit, i - 1), os[i - 1], limit)
  }

  /** One more candidate, from a loop that is still running: a raise stops
      it with the error, a skipped ticker changes nothing, and a checked
      candidate adds its gem, if any, and stops the loop at `2 * limit`
      gems. */
  lemma RunNext(os: seq<Outcome>, limit: int, i: nat, kept: seq<GemStock>)
    requires i < |os| && Run(os, limit, i) == Progress(Ok(kept), false)
    ensures os[i].Raised? ==> Run(os, limit, i + 1) == Progress(Err(os[i].error), true)
    ensures os[i].Skipped? ==> Run(os, limit, i + 1) == Progress(Ok(kept), false)
    ensures os[i].Checked? ==>
      var more := kept + Listed(os[i].gem);
      Run(os, limit, i + 1) == Progress(Ok(more), |more| >= limit * 2)
  {
  }

  /** With a positive limit the loop collects the first `2 * limit` gems
      that the candidates yield; with a non-positive limit it keeps at most
      one. */
  lemma RunMeaning(os: seq<Outcome>, limit: int)
    ensures var p := Run(os, limit, |os|);
      && (limit > 0 && Validated(os).Ok? ==> p.gems == Ok(Take(Validated(os).value, 2 * limit)))
      && (limit <= 0 && p.gems.Ok? ==> |p.gems.value| <= 1)
  {
    assert os[..|os|] == os;
    if limit > 0 {
      RunPositive(os, limit, |os|);
    } else {
      RunNonPositive(os, limit, |os|);
    }
  }

  /** With a positive limit, `Run` over a prefix keeps the first `2 * limit`
      gems of that prefix and has stopped once it has them. */
  lemma {:induction false} RunPositive(os: seq<Outcome>, limit: int, i: nat)
    requires i <= |os| && limit > 0
    ensures var p := Run(os, limit, i);
      var v := Validated(os[..i]);
      v.Ok? ==> p.gems == Ok(Take(v.value, 2 * limit)) && (p.stopped <==> |v.value| >= 2 * limit)
    decreases i
  {
    if i > 0 {
      var n := i - 1;
      assert os[..i][..n] == os[..n];
      assert os[..i][n] == os[n];
      RunPositive(os, limit, n);
      var v := Validated(os[..i]);
      var w := Validated(os[..n]);
      if v.Ok? {
        assert w.Ok? && w.value == v.value[..|w.value|];
        if |w.value| >= 2 * limit {
          assert Take(v.value, 2 * limit) == Take(w.value, 2 * limit);
        } else {
          assert Take(w.value, 2 * limit) == w.value;
          assert |v.value| <= |w.value| + 1;
          assert Take(v.value, 2 * limit) == v.value;
        }
      }
    }
  }

  /** With a non-positive limit the run stops at the first usable ticker,
      so it never holds more than one gem. */
  lemma {:induction false} RunNonPositive(os: seq<Outcome>, limit: int, i: nat)
    requires i <= |os| && limit <= 0
    ensures var p := Run(os, limit, i);
      p.gems.Ok? ==> |p.gems.value| <= 1 && (!p.stopped ==> p.gems.value == [])
    decreases i
  {
    if i > 0 {
      RunNonPositive(os, limit, i - 1);
    }
  }

  /** Once the run has stopped, the remaining candidates change nothing. */
  lemma {:induction false} RunAfterStop(os: seq<Outcome>, limit: int, i: nat)
    requires i <= |os|
    requires Run(os, limit, i).stopped || Run(os, limit, i).gems.Err?
    ensures Run(os, limit, |os|) == Run(os, limit, i)
    decreases |os| - i
  {
    if i < |os| {
      RunAfterStop(os, limit, i + 1);
    }
  }

  /** The body of the `find_gems` loop for one candidate, up to the count
      check: read and clean its ticker, skip a ticker that is not usable,
      otherwise validate it with the `info` fetched for it. */
  method Examine(candidate: Json, info: Option<Info>, cfg: Config) returns (o: Outcome)
    ensures o == OutcomeOf(candidate, info, cfg)
  {
    var ticker := TickerOf(candidate);
    if ticker.Err? {
      return Raised(ticker.error);
    }
    if !UsableTicker(ticker.value) {
      return Skipped;
    }
    var gem := ValidateStock(ticker.value, DescriptionOf(candidate), SourceOf(candidate), info, cfg);
    o := Checked(gem);
  }

  /** `Examine` on the `i`-th candidate, with the `info` fetched for it. */
  method ExamineAt(candidates: seq<Json>, infos: seq<Option<Info>>, cfg: Config, i: nat)
    returns (o: Outcome)
    requires |infos| == |candidates| && i < |candidates|
    ensures o == Outcomes(candidates, infos, cfg)[i]
  {
    o := Examine(candidates[i], infos[i], cfg);
    OutcomeAt(candidates, infos, cfg, i);
  }

  /** The loop of `find_gems` over the search results: the gems it
      collects, or the error a candidate raised. */
  method CollectGems(candidates: seq<Json>, infos: seq<Option<Info>>, cfg: Config, limit: int)
    returns (gems: Result<seq<GemStock>, PyError>)
    requires |infos| == |candidates|
    ensures gems == Run(Outcomes(candidates, infos, cfg), limit, |candidates|).gems
  {
    ghost var os := Outcomes(candidates, infos, cfg);
    var kept: seq<GemStock> := [];
    var i := 0;
    while i < |candidates|
      invariant 0 <= i <= |candidates|
      invariant Run(os, limit, i) == Progress(Ok(kept), false)
    {
      var o := ExamineAt(candidates, infos, cfg, i);
      RunNext(os, limit, i, kept);
      match o
      case Raised(e) =>
        RunAfterStop(os, limit, i + 1);
        return Err(e);
      case Skipped =>
        i := i + 1;
      case Checked(gem) =>
        kept := kept + Listed(gem);
        if |kept| >= limit * 2 {
          RunAfterStop(os, limit, i + 1);
          break;
        }
        i := i + 1;
    }
    gems := Ok(kept);
  }

  /** `find_gems`: `search` is the outcome of the backend call that
      searches for candidates and `infos[k]` the `info` fetched for the
      `k`-th search result. That call is outside any handler, so when it
      raises `find_gems` raises; otherwise the gems collected are sorted by
      volume ratio and cut to `limit`. */
  method FindGems(decode: string -> Option<Json>, search: GeminiUtils.CallOutcome, infos: seq<Option<Info>>,
                  cfg: Config, limit: int) returns (result: Result<seq<GemStock>, PyError>)
    requires search.Returned? ==> |infos| == |SearchResults(decode, search.text)|
    ensures search.Raised? ==> result == Err(BackendError)
    ensures search.Returned? ==>
      var p := Run(Outcomes(SearchResults(decode, search.text), infos, cfg), limit, |infos|);
      && (p.gems.Err? ==> result == p.gems)
      && (p.gems.Ok? ==> result == Ok(SliceTo(Sorting.SortDesc(p.gems.value, VolumeRatio), limit)))
  {
    if search.Raised? {
      return Err(BackendError);
    }
    var candidates := SearchResults(decode, search.text);
    var gems := CollectGems(candidates, infos, cfg, limit);
    if gems.Err? {
      return gems;
    }
    result := Ok(SliceTo(Sorting.SortDesc(gems.value, VolumeRatio), limit));
  }

  /** With a positive limit the result is at most `limit` gems by volume
      ratio, highest first, drawn from the first `2 * limit` the candidates
      yield; with a non-positive limit it is empty. */
  lemma FindGemsMeaning(os: seq<Outcome>, limit: int)
    ensures var p := Run(os, limit, |os|);
      p.gems.Ok? ==>
        var r := SliceTo(Sorting.SortDesc(p.gems.value, VolumeRatio), limit);
        && |r| <= (if limit <= 0 then 0 else limit)
        && Sorting.Descending(r, VolumeRatio)
        && (Validated(os).Ok? ==> forall g :: g in r ==> g in Take(Validated(os).value, 2 * limit))
  {
    RunMeaning(os, limit);
    var p := Run(os, limit, |os|);
    if p.gems.Ok? {
      Sorting.SortDescOrdered(p.gems.value, VolumeRatio);
      SliceToOrdered(Sorting.SortDesc(p.gems.value, VolumeRatio), limit);
    }
  }

  /** A prefix of a list ordered by volume ratio is ordered too, and holds
      only elements of the list. */
  lemma SliceToOrdered(xs: seq<GemStock>, n: int)
    requires Sorting.Descending(xs, VolumeRatio)
    ensures Sorting.Descending(SliceTo(xs, n), VolumeRatio)
    ensures forall g :: g in SliceTo(xs, n) ==> g in xs
  {
    var r := SliceTo(xs, n);
    forall i, j | 0 <= i < j < |r| ensures VolumeRatio(r[i]) >= VolumeRatio(r[j]) {
      assert r[i] == xs[i] && r[j] == xs[j];
    }
    forall g | g in r ensures g in xs {
      var k :| 0 <= k < |r| && r[k] == g;
      assert xs[k] == g;
    }
  }

  /** A gem that passed `validate_stock` under a usable ticker. */
  predicate GoodGem(g: GemStock, cfg: Config)
  {
    && UsableTicker(g.ticker)
    && g.price != 0.0 && cfg.minPrice <= g.price <= cfg.maxPrice
    && g.marketCap != 0.0 && g.marketCap <= cfg.maxMarketCap
  }

  /** A candidate that yields a gem yields a good one. */
  lemma OutcomeGood(candidate: Json, info: Option<Info>, cfg: Config)
    ensures var o := OutcomeOf(candidate, info, cfg);
      o.Checked? && o.gem.Some? ==> GoodGem(o.gem.value, cfg)
  {
  }

  /** Every gem kept passed the filters, under a ticker of one to five
      characters. */
  lemma {:induction false} ValidatedGood(os: seq<Outcome>, cfg: Config)
    requires forall k :: 0 <= k < |os| && os[k].Checked? && os[k].gem.Some? ==> GoodGem(os[k].gem.value, cfg)
    ensures Validated(os).Ok? ==> forall g :: g in Validated(os).value ==> GoodGem(g, cfg)
  {
    if os != [] {
      var n := |os| - 1;
      ValidatedGood(os[..n], cfg);
    }
  }

  lemma ValidatedGems(cs: seq<Json>, infos: seq<Option<Info>>, cfg: Config)
    requires |infos| == |cs|
    ensures var v := Validated(Outcomes(cs, infos, cfg));
      v.Ok? ==> forall g :: g in v.value ==> GoodGem(g, cfg)
  {
    var os := Outcomes(cs, infos, cfg);
    forall k | 0 <= k < |os| ensures os[k].Checked? && os[k].gem.Some? ==> GoodGem(os[k].gem.value, cfg) {
      OutcomeAt(cs, infos, cfg, k);
      OutcomeGood(cs[k], infos[k], cfg);
    }
    ValidatedGood(os, cfg);
  }

  // ---------------------------------------------------------------------------
  // Summary

  /** The lines of `format_gems_summary`, without wording and number
      formatting. */
  datatype SummaryLine =
    | NoGems
    | Header
    | GemLine(rank: nat, ticker: string, penny: bool, rising: bool, billions: bool, volumeRatio: real)
    | AnalyzeHint

  const SummaryShown: nat := 7

  function GemLineOf(rank: nat, g: GemStock): SummaryLine
  {
    GemLine(rank, g.ticker, g.price < 5.0, g.changePct >= 0.0, g.marketCap >= 1000000000.0, g.volumeRatio)
  }

  function FormatGemsSummary(gems: seq<GemStock>): seq<SummaryLine>
  {
    if gems == [] then [NoGems]
    else
      var shown := Take(gems, SummaryShown);
      [Header] + seq(|shown|, k requires 0 <= k < |shown| => GemLineOf(k + 1, shown[k])) + [AnalyzeHint]
  }

  /** The summary shows the first seven gems at most, numbered from 1. */
  lemma SummaryShape(gems: seq<GemStock>)
    ensures gems == [] <==> FormatGemsSummary(gems) == [NoGems]
    ensures gems != [] ==> var lines := FormatGemsSummary(gems);
      var n := if |gems| < 7 then |gems| else 7;
      && |lines| == n + 2 && lines[0] == Header && lines[n + 1] == AnalyzeHint
      && forall k :: 0 <= k < n ==> lines[k + 1] == GemLineOf(k + 1, gems[k])
  {
    if gems != [] {
      var shown := Take(gems, SummaryShown);
      var mid := seq(|shown|, k requires 0 <= k < |shown| => GemLineOf(k + 1, shown[k]));
      var lines := [Header] + mid + [AnalyzeHint];
      assert FormatGemsSummary(gems) == lines;
      forall k | 0 <= k < |shown|
        ensures lines[k + 1] == GemLineOf(k + 1, gems[k])
      {
        assert lines[k + 1] == mid[k];
      }
    }
  }
}
