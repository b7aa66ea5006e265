/** `src/scanner/gem_finder.py`: the volume spike of a quote, the price and
    market-cap filters on a Reddit candidate, the selection and ranking loop
    of `find_gems`, and the market-cap bands of the messages. The yfinance
    and Finnhub fetches are inputs: one optional quote per candidate. */
module GemFinder {
  import opened Wrappers
  import opened Text
  import opened Dicts
  import Sorting
  import RedditScanner

  /** The `GemFinder` constructor arguments. */
  datatype Config = Config(maxMarketCap: real, minPrice: real, maxPrice: real, minVolumeSpike: real)

  const DefaultConfig := Config(2000000000.0, 0.10, 50.00, 1.5)

  /** The fields of `stock.info` that `get_stock_info` reads. A numeric key
      may be missing, hold None or hold a number; a text key is missing or
      holds a text. */
  datatype Info = Info(
    shortName: Option<string>,
    regularMarketPrice: Field<real>,
    previousClose: Field<real>,
    marketCap: Field<real>,
    averageVolume: Field<real>,
    sector: Option<string>)

  /** What yfinance returned for one ticker: `info` (`None` for an empty
      dict) and the daily volumes of the last month (empty for an empty
      history). */
  datatype Quote = Quote(info: Option<Info>, volumes: seq<real>)

  /** The dict `get_stock_info` returns; a price or cap of `None` is passed
      on as it was read. */
  datatype StockInfo = StockInfo(
    name: string,
    price: Option<real>,
    marketCap: Option<real>,
    volume: int,
    avgVolume: int,
    volumeSpike: real,
    sector: string)

  /** `avg_volume`: the `averageVolume` field unless it is missing, None or
      zero, in which case today's volume. */
  function AverageVolume(averageVolume: Field<real>, current: real): real
  {
    match averageVolume
    case Present(a) => if a != 0.0 then a else current
    case _ => current
  }

  /** `volume_spike`: today's volume over the average, 1.0 when the average
      is not positive. */
  function VolumeSpike(current: real, avg: real): real
  {
    if avg > 0.0 then current / avg else 1.0
  }

  /** Without a usable average the spike is exactly 1.0; with one, it
      reaches a threshold exactly when today's volume reaches that multiple
      of the average. */
  lemma VolumeSpikeMeaning(averageVolume: Field<real>, current: real, threshold: real)
    ensures (!averageVolume.Present? || averageVolume.value == 0.0) ==>
              VolumeSpike(current, AverageVolume(averageVolume, current)) == 1.0
    ensures averageVolume.Present? && averageVolume.value > 0.0 ==>
              (VolumeSpike(current, AverageVolume(averageVolume, current)) >= threshold
               <==> current >= threshold * averageVolume.value)
  {
    if averageVolume.Present? && averageVolume.value > 0.0 {
      var a := averageVolume.value;
      DivLe(threshold, current, a);
    }
  }

  /** `info.get("regularMarketPrice") or info.get("previousClose", 0)`. */
  function PriceOf(info: Info): Option<real>
  {
    match info.regularMarketPrice
    case Present(p) => if p != 0.0 then Some(p) else GetField(info.previousClose, 0.0)
    case _ => GetField(info.previousClose, 0.0)
  }

  /** `get_stock_info`: `None` for an empty history or an empty `info`;
      otherwise the price is `regularMarketPrice` unless missing, None or
      zero, else `previousClose` (default 0), and the cap defaults to 0; a
      key holding None gives a price or cap of None. */
  function StockInfoOf(ticker: string, q: Quote): Option<StockInfo>
  {
    if q.volumes == [] || q.info.None? then None
    else
      var info := q.info.value;
      var current := q.volumes[|q.volumes| - 1];
      var avg := AverageVolume(info.averageVolume, current);
      Some(StockInfo(info.shortName.GetOr(ticker), PriceOf(info), GetField(info.marketCap, 0.0),
                     TruncInt(current), TruncInt(avg), VolumeSpike(current, avg),
                     info.sector.GetOr("Unknown")))
  }

  /** The stock info exists exactly for a non-empty history and `info`. Its
      price is a usable `regularMarketPrice`, else `previousClose`, 0 when
      that is missing and None when it holds None; its cap is `marketCap`,
      0 when missing and None when it holds None. */
  lemma StockInfoFields(ticker: string, q: Quote)
    ensures var r := StockInfoOf(ticker, q);
      r.Some? <==> q.volumes != [] && q.info.Some?
    ensures var r := StockInfoOf(ticker, q);
      r.Some? ==>
      var info := q.info.value;
      var usable := info.regularMarketPrice.Present? && info.regularMarketPrice.value != 0.0;
      && r.value.name == info.shortName.GetOr(ticker)
      && r.value.sector == info.sector.GetOr("Unknown")
      && (usable ==> r.value.price == Some(info.regularMarketPrice.value))
      && (!usable && info.previousClose.Missing? ==> r.value.price == Some(0.0))
      && (!usable && info.previousClose.Present? ==> r.value.price == Some(info.previousClose.value))
      && (r.value.price.None? <==> !usable && info.previousClose.Null?)
      && (info.marketCap.Missing? ==> r.value.marketCap == Some(0.0))
      && (info.marketCap.Present? ==> r.value.marketCap == Some(info.marketCap.value))
      && (r.value.marketCap.None? <==> info.marketCap.Null?)
  {
  }

  /** A `GemStock`; the Finnhub buzz is not modelled. */
  datatype GemStock = GemStock(
    ticker: string,
    name: string,
    price: real,
    marketCap: real,
    volume: int,
    avgVolume: int,
    volumeSpike: real,
    mentionCount: nat,
    momentum: real,
    sentiment: RedditScanner.Sentiment,
    subreddits: set<string>,
    samplePosts: seq<string>,
    sector: string,
    isPennyStock: bool)

  const PennyLimit: real := 5.0

  /** The price and market-cap filters of `validate_candidate`. */
  predicate PassesFilters(price: real, cap: real, cfg: Config)
  {
    cfg.minPrice <= price <= cfg.maxPrice && cap <= cfg.maxMarketCap
  }

  /** The TypeError of a filter that compares None with its bound: the
      price against `min_price`, or the cap against `max_market_cap`. */
  datatype Uncomparable = PriceIsNone | CapIsNone

  /** `validate_candidate`, given what the fetch returned (`None` when it
      raised): no gem, a gem, or the TypeError of a None price or cap. */
  function ValidateCandidate(c: RedditScanner.GemCandidate, fetched: Option<Quote>, cfg: Config)
    : Result<Option<GemStock>, Uncomparable>
  {
    if fetched.None? then Ok(None)
    else
      match StockInfoOf(c.ticker, fetched.value)
      case None => Ok(None)
      case Some(info) =>
        if info.price.None? then Err(PriceIsNone)
        else
          var price := info.price.value;
          if price < cfg.minPrice || price > cfg.maxPrice then Ok(None)
          else if info.marketCap.None? then Err(CapIsNone)
          else if info.marketCap.value > cfg.maxMarketCap then Ok(None)
          else Ok(Some(GemStock(c.ticker, info.name, price, info.marketCap.value, info.volume,
                                info.avgVolume, info.volumeSpike, c.mentionCount, c.momentum,
                                c.avgSentiment, c.subreddits, c.samplePosts, info.sector,
                                price < PennyLimit)))
  }

  /** A candidate raises exactly when its quote has data and a None price,
      or a price within bounds and a None cap; it becomes a gem exactly when
      its quote has data, a price and a cap, and both pass the filters. The
      gem carries the candidate's Reddit figures and is a penny stock
      exactly when it costs less than 5. */
  lemma ValidateMeaning(c: RedditScanner.GemCandidate, fetched: Option<Quote>, cfg: Config)
    ensures var v := ValidateCandidate(c, fetched, cfg);
      var info := if fetched.Some? then StockInfoOf(c.ticker, fetched.value) else None;
      && (v == Err(PriceIsNone) <==> info.Some? && info.value.price.None?)
      && (v == Err(CapIsNone) <==>
            info.Some? && info.value.price.Some? && cfg.minPrice <= info.value.price.value <= cfg.maxPrice
            && info.value.marketCap.None?)
      && (v.Ok? && v.value.Some? <==>
            info.Some? && info.value.price.Some? && info.value.marketCap.Some?
            && PassesFilters(info.value.price.value, info.value.marketCap.value, cfg))
    ensures var v := ValidateCandidate(c, fetched, cfg);
      v.Ok? && v.value.Some? ==>
      var g := v.value.value;
      && g.ticker == c.ticker && g.mentionCount == c.mentionCount && g.momentum == c.momentum
      && g.sentiment == c.avgSentiment && g.samplePosts == c.samplePosts
      && PassesFilters(g.price, g.marketCap, cfg)
      && (g.isPennyStock <==> g.price < 5.0)
  {
  }

  /** What validating one candidate gives inside `find_gems`: no gem, a
      gem, or the TypeError that ends the call. */
  type Outcome = Result<Option<GemStock>, Uncomparable>

  /** The validation outcome of every candidate, with its fetched quote. */
  function Outcomes(cs: seq<RedditScanner.GemCandidate>, quotes: seq<Option<Quote>>, cfg: Config): (os: seq<Outcome>)
    requires |quotes| == |cs|
    ensures |os| == |cs|
  {
    if cs == [] then []
    else
      var n := |cs| - 1;
      Outcomes(cs[..n], quotes[..n], cfg) + [ValidateCandidate(cs[n], quotes[n], cfg)]
  }

  /** Outcome `k` is the validation of candidate `k` with its quote. */
  lemma {:induction false} OutcomeAt(cs: seq<RedditScanner.GemCandidate>, quotes: seq<Option<Quote>>,
                                     cfg: Config, k: nat)
    requires |quotes| == |cs| && k < |cs|
    ensures Outcomes(cs, quotes, cfg)[k] == ValidateCandidate(cs[k], quotes[k], cfg)
  {
    var n := |cs| - 1;
    if k < n {
      OutcomeAt(cs[..n], quotes[..n], cfg, k);
    }
  }

  /** The gem an outcome yields inside `find_gems`: a validated gem, with a
      large enough spike when one is required. A raising outcome yields
      none; `Raised` says where the loop stops on it. */
  function Accept(o: Outcome, cfg: Config, requireSpike: bool): Option<GemStock>
  {
    match o
    case Ok(Some(g)) => if requireSpike && g.volumeSpike < cfg.minVolumeSpike then None else Some(g)
    case _ => None
  }

  /** Every gem the outcomes yield, in candidate order, without the cap on
      how many are collected. */
  function Validated(os: seq<Outcome>, cfg: Config, requireSpike: bool): (r: seq<GemStock>)
    ensures |r| <= |os|
  {
    if os == [] then []
    else
      var n := |os| - 1;
      Validated(os[..n], cfg, requireSpike)
      + match Accept(os[n], cfg, requireSpike)
        case Some(g) => [g]
        case None => []
  }

  /** The gems of a prefix of the outcomes are a prefix of all gems. */
  lemma {:induction false} ValidatedPrefix(os: seq<Outcome>, cfg: Config, requireSpike: bool, i: nat)
    requires i <= |os|
    ensures var pre := Validated(os[..i], cfg, requireSpike);
      var all := Validated(os, cfg, requireSpike);
      |pre| <= |all| && pre == all[..|pre|]
    decreases |os| - i
  {
    if i < |os| {
      var n := |os| - 1;
      assert os[..n][..i] == os[..i];
      ValidatedPrefix(os[..n], cfg, requireSpike, i);
      var pre := Validated(os[..i], cfg, requireSpike);
      var init := Validated(os[..n], cfg, requireSpike);
      var all := Validated(os, cfg, requireSpike);
      assert all[..|init|] == init;
      assert all[..|pre|] == init[..|pre|];
    } else {
      assert os[..i] == os;
    }
  }

  /** One more outcome adds its gem, if it yields one. */
  lemma ValidatedSnoc(os: seq<Outcome>, cfg: Config, requireSpike: bool, i: nat)
    requires i < |os|
    ensures Validated(os[..i + 1], cfg, requireSpike)
      == Validated(os[..i], cfg, requireSpike)
         + match Accept(os[i], cfg, requireSpike)
           case Some(g) => [g]
           case None => []
  {
    assert os[..i + 1][..i] == os[..i];
  }

  /** Every gem is the gem of one of the outcomes, and passes the spike
      threshold when one is required. */
  lemma {:induction false} ValidatedGems(os: seq<Outcome>, cfg: Config, requireSpike: bool)
    ensures forall g :: g in Validated(os, cfg, requireSpike) ==>
      && (exists k :: 0 <= k < |os| && os[k] == Ok(Some(g)))
      && (requireSpike ==> g.volumeSpike >= cfg.minVolumeSpike)
  {
    if os != [] {
      var n := |os| - 1;
      ValidatedGems(os[..n], cfg, requireSpike);
      forall g | g in Validated(os[..n], cfg, requireSpike)
        ensures exists k :: 0 <= k < |os| && os[k] == Ok(Some(g))
      {
        var k :| 0 <= k < n && os[..n][k] == Ok(Some(g));
        assert os[k] == Ok(Some(g));
      }
    }
  }

  /** The sort key: momentum weighted by the volume spike. */
  function Rank(g: GemStock): real
  {
    g.momentum * (1.0 + g.volumeSpike)
  }

  /** The gems `find_gems` keeps before sorting: the first `2 * limit` that
      the outcomes yield, none for a non-positive limit. */
  function Collected(os: seq<Outcome>, cfg: Config, requireSpike: bool, limit: int): seq<GemStock>
  {
    Take(Validated(os, cfg, requireSpike), if limit <= 0 then 0 else 2 * limit)
  }

  /** `gems[:limit]` after the sort by rank. */
  function Ranked(gems: seq<GemStock>, limit: int): seq<GemStock>
  {
    Sorting.TopN(gems, Rank, if limit <= 0 then 0 else limit)
  }

  /** The result holds at most `limit` gems, best rank first; each passed
      every filter; and a gem that was collected but dropped ranks no
      higher than any gem returned. */
  lemma RankedMeaning(cs: seq<RedditScanner.GemCandidate>, quotes: seq<Option<Quote>>,
                      cfg: Config, requireSpike: bool, limit: int)
    requires |quotes| == |cs|
    ensures var kept := Collected(Outcomes(cs, quotes, cfg), cfg, requireSpike, limit);
      var r := Ranked(kept, limit);
      && |r| <= (if limit <= 0 then 0 else limit)
      && Sorting.Descending(r, Rank)
      && (forall g :: g in r ==>
            && (exists c :: c in cs && c.ticker == g.ticker)
            && cfg.minPrice <= g.price <= cfg.maxPrice && g.marketCap <= cfg.maxMarketCap
            && (requireSpike ==> g.volumeSpike >= cfg.minVolumeSpike))
      && (forall i, g | 0 <= i < |r| && g in kept && g !in r :: Rank(g) <= Rank(r[i]))
  {
    var os := Outcomes(cs, quotes, cfg);
    var all := Validated(os, cfg, requireSpike);
    var kept := Collected(os, cfg, requireSpike, limit);
    ValidatedGems(os, cfg, requireSpike);
    forall g | g in all
      ensures exists c :: c in cs && c.ticker == g.ticker
      ensures cfg.minPrice <= g.price <= cfg.maxPrice && g.marketCap <= cfg.maxMarketCap
    {
      var k :| 0 <= k < |os| && os[k] == Ok(Some(g));
      OutcomeAt(cs, quotes, cfg, k);
      ValidateMeaning(cs[k], quotes[k], cfg);
      assert cs[k] in cs;
    }
    assert forall g :: g in kept ==> g in all;
    Sorting.TopNOrdered(kept, Rank, if limit <= 0 then 0 else limit);
  }

  /** The TypeError that stops `find_gems`: the first outcome that raises,
      among those the loop reaches before it holds twice `limit` gems; none
      when no reached outcome raises. */
  function Raised(os: seq<Outcome>, cfg: Config, requireSpike: bool, limit: int): Option<Uncomparable>
  {
    if os == [] then None
    else
      var n := |os| - 1;
      var before := Raised(os[..n], cfg, requireSpike, limit);
      if before.Some? then before
      else if |Validated(os[..n], cfg, requireSpike)| >= limit * 2 then None
      else match os[n]
        case Err(e) => Some(e)
        case Ok(_) => None
  }

  /** Outcome `i` is reached without an earlier raise, and raises `e`. */
  predicate RaisesAt(os: seq<Outcome>, cfg: Config, requireSpike: bool, limit: int, i: int, e: Uncomparable)
  {
    && 0 <= i < |os| && os[i] == Err(e)
    && |Validated(os[..i], cfg, requireSpike)| < limit * 2
    && Raised(os[..i], cfg, requireSpike, limit).None?
  }

  /** A raise is the error of an outcome the loop reaches, with no raise
      before it. */
  lemma {:induction false} RaisedSome(os: seq<Outcome>, cfg: Config, requireSpike: bool, limit: int)
    ensures var e := Raised(os, cfg, requireSpike, limit);
      e.Some? ==> exists i :: RaisesAt(os, cfg, requireSpike, limit, i, e.value)
  {
    var e := Raised(os, cfg, requireSpike, limit);
    if os != [] && e.Some? {
      var n := |os| - 1;
      var pre := os[..n];
      if Raised(pre, cfg, requireSpike, limit).Some? {
        RaisedSome(pre, cfg, requireSpike, limit);
        var i :| RaisesAt(pre, cfg, requireSpike, limit, i, e.value);
        assert pre[..i] == os[..i];
        assert RaisesAt(os, cfg, requireSpike, limit, i, e.value);
      } else {
        assert RaisesAt(os, cfg, requireSpike, limit, n, e.value);
      }
    }
  }

  /** Without a raise, every outcome the loop reaches is not an error. */
  lemma {:induction false} RaisedNone(os: seq<Outcome>, cfg: Config, requireSpike: bool, limit: int)
    ensures Raised(os, cfg, requireSpike, limit).None? ==>
      forall i :: 0 <= i < |os| && |Validated(os[..i], cfg, requireSpike)| < limit * 2 ==> os[i].Ok?
  {
    if os != [] && Raised(os, cfg, requireSpike, limit).None? {
      var n := |os| - 1;
      var pre := os[..n];
      RaisedNone(pre, cfg, requireSpike, limit);
      forall i | 0 <= i < |os| && |Validated(os[..i], cfg, requireSpike)| < limit * 2
        ensures os[i].Ok?
      {
        if i < n {
          assert pre[..i] == os[..i];
          assert pre[i] == os[i];
        }
      }
    }
  }

  /** A raise in a prefix is the raise of the whole. */
  lemma {:induction false} RaisedFrom(os: seq<Outcome>, cfg: Config, requireSpike: bool, limit: int, i: nat)
    requires i <= |os|
    ensures Raised(os[..i], cfg, requireSpike, limit).Some? ==>
      Raised(os, cfg, requireSpike, limit) == Raised(os[..i], cfg, requireSpike, limit)
    decreases |os| - i
  {
    if i < |os| {
      var n := |os| - 1;
      assert os[..n][..i] == os[..i];
      RaisedFrom(os[..n], cfg, requireSpike, limit, i);
    } else {
      assert os[..i] == os;
    }
  }

  /** A prefix that ends without a raise and with twice `limit` gems is
      never passed: nothing after it raises. */
  lemma {:induction false} RaisedStops(os: seq<Outcome>, cfg: Config, requireSpike: bool, limit: int, i: nat)
    requires i <= |os|
    ensures Raised(os[..i], cfg, requireSpike, limit).None?
            && |Validated(os[..i], cfg, requireSpike)| >= limit * 2 ==>
      Raised(os, cfg, requireSpike, limit).None?
    decreases |os| - i
  {
    if i < |os| {
      var n := |os| - 1;
      assert os[..n][..i] == os[..i];
      RaisedStops(os[..n], cfg, requireSpike, limit, i);
      ValidatedPrefix(os[..n], cfg, requireSpike, i);
    } else {
      assert os[..i] == os;
    }
  }

  /** One step of the selection loop: the gems grow by exactly what the
      outcome yields. */
  lemma KeptIsAccepted(os: seq<Outcome>, cfg: Config, requireSpike: bool, i: nat,
                       before: seq<GemStock>, after: seq<GemStock>)
    requires i < |os|
    requires before == Validated(os[..i], cfg, requireSpike)
    requires after == if os[i].Ok? && os[i].value.Some?
                         && !(requireSpike && os[i].value.value.volumeSpike < cfg.minVolumeSpike)
                      then before + [os[i].value.value] else before
    ensures after == Validated(os[..i + 1], cfg, requireSpike)
  {
    ValidatedSnoc(os, cfg, requireSpike, i);
    if after == before {
      assert before + [] == before;
    }
  }

  /** The raise of the loop at outcome `i`, reached without an earlier
      raise, is the raise of all the outcomes. */
  lemma RaisedAt(os: seq<Outcome>, cfg: Config, requireSpike: bool, limit: int, i: nat)
    requires i < |os|
    requires Raised(os[..i], cfg, requireSpike, limit).None?
    requires |Validated(os[..i], cfg, requireSpike)| < limit * 2
    requires os[i].Err?
    ensures Raised(os, cfg, requireSpike, limit) == Some(os[i].error)
  {
    assert os[..i + 1][..i] == os[..i];
    RaisedFrom(os, cfg, requireSpike, limit, i + 1);
  }

  /** An outcome the loop reaches without a raise, and that is not an
      error, keeps the loop free of raises. */
  lemma RaisedNot(os: seq<Outcome>, cfg: Config, requireSpike: bool, limit: int, i: nat)
    requires i < |os|
    requires Raised(os[..i], cfg, requireSpike, limit).None?
    requires |Validated(os[..i], cfg, requireSpike)| < limit * 2
    requires os[i].Ok?
    ensures Raised(os[..i + 1], cfg, requireSpike, limit).None?
  {
    assert os[..i + 1][..i] == os[..i];
  }

  /** The selection loop of `find_gems`: validate the candidates in order
      and stop once twice `limit` gems are kept; a raising validation ends
      the loop with its TypeError. */
  method CollectGems(candidates: seq<RedditScanner.GemCandidate>, quotes: seq<Option<Quote>>,
                     cfg: Config, limit: int, requireSpike: bool) returns (r: Result<seq<GemStock>, Uncomparable>)
    requires |quotes| == |candidates|
    ensures var os := Outcomes(candidates, quotes, cfg);
      r == match Raised(os, cfg, requireSpike, limit)
           case Some(e) => Err(e)
           case None => Ok(Collected(os, cfg, requireSpike, limit))
  {
    ghost var os := Outcomes(candidates, quotes, cfg);
    var gems := [];
    var cap := if limit <= 0 then 0 else 2 * limit;
    var i := 0;
    while i < |candidates|
      invariant 0 <= i <= |candidates|
      invariant Raised(os[..i], cfg, requireSpike, limit).None?
      invariant gems == Validated(os[..i], cfg, requireSpike)
      invariant |gems| <= cap
    {
      if |gems| >= limit * 2 {
        break;
      }
      var gem := ValidateCandidate(candidates[i], quotes[i], cfg);
      OutcomeAt(candidates, quotes, cfg, i);
      if gem.Err? {
        RaisedAt(os, cfg, requireSpike, limit, i);
        return Err(gem.error);
      }
      ghost var before := gems;
      if gem.value.Some? {
        if !(requireSpike && gem.value.value.volumeSpike < cfg.minVolumeSpike) {
          gems := gems + [gem.value.value];
        }
      }
      KeptIsAccepted(os, cfg, requireSpike, i, before, gems);
      RaisedNot(os, cfg, requireSpike, limit, i);
      i := i + 1;
    }
    StoppedCollecting(os, cfg, requireSpike, limit, i, gems);
    r := Ok(gems);
  }

  /** Where the selection loop stops, at the end of the outcomes or on
      reaching the cap, its gems are the collected ones, and no later
      outcome raises. */
  lemma StoppedCollecting(os: seq<Outcome>, cfg: Config, requireSpike: bool, limit: int, i: nat, gems: seq<GemStock>)
    requires i <= |os|
    requires Raised(os[..i], cfg, requireSpike, limit).None?
    requires gems == Validated(os[..i], cfg, requireSpike)
    requires |gems| <= (if limit <= 0 then 0 else 2 * limit)
    requires i == |os| || |gems| >= limit * 2
    ensures gems == Collected(os, cfg, requireSpike, limit)
    ensures Raised(os, cfg, requireSpike, limit).None?
  {
    var cap := if limit <= 0 then 0 else 2 * limit;
    ValidatedPrefix(os, cfg, requireSpike, i);
    var all := Validated(os, cfg, requireSpike);
    if i == |os| {
      assert os[..i] == os;
      assert gems == all;
    } else {
      RaisedStops(os, cfg, requireSpike, limit, i);
      assert |gems| == cap && gems == all[..cap];
    }
  }

  /** `find_gems` on the candidates of `scan_reddit` (the mentions
      aggregated with at least two mentions each), one fetched quote per
      candidate: collect gems until there are twice `limit`, then rank them
      and keep `limit`. The TypeError of a None price or cap is not caught
      and ends the call. */
  method FindGems(mentions: seq<RedditScanner.Mention>, quotes: seq<Option<Quote>>,
                  cfg: Config, limit: int, requireSpike: bool) returns (result: Result<seq<GemStock>, Uncomparable>)
    requires |quotes| == |RedditScanner.Aggregate(mentions, 2)|
    ensures var os := Outcomes(RedditScanner.Aggregate(mentions, 2), quotes, cfg);
      result == match Raised(os, cfg, requireSpike, limit)
                case Some(e) => Err(e)
                case None => Ok(Ranked(Collected(os, cfg, requireSpike, limit), limit))
  {
    var candidates := RedditScanner.AggregateMentions(mentions, 2);
    var gems := CollectGems(candidates, quotes, cfg, limit, requireSpike);
    if gems.Err? {
      return Err(gems.error);
    }
    result := Ok(Sorting.TopN(gems.value, Rank, if limit <= 0 then 0 else limit));
  }

  // ---------------------------------------------------------------------------
  // Messages

  /** The market cap as shown: billions to one decimal, whole millions, or
      the plain amount. */
  datatype CapText = Billions(amount: real) | Millions(amount: real) | Plain(amount: real)

  function CapTextOf(cap: real): (r: CapText)
    ensures cap >= 1000000000.0 ==> r == Billions(cap / 1000000000.0)
    ensures 1000000.0 <= cap < 1000000000.0 ==> r == Millions(cap / 1000000.0)
    ensures cap < 1000000.0 ==> r == Plain(cap)
  {
    if cap >= 1000000000.0 then Billions(cap / 1000000000.0)
    else if cap >= 1000000.0 then Millions(cap / 1000000.0)
    else Plain(cap)
  }

  /** The scaled amount of a billion or million band is at least one, and
      below a thousand in the million band. */
  lemma CapTextRange(cap: real)
    ensures CapTextOf(cap).Billions? ==> CapTextOf(cap).amount >= 1.0
    ensures CapTextOf(cap).Millions? ==> 1.0 <= CapTextOf(cap).amount < 1000.0
  {
    if cap >= 1000000.0 {
      DivGe(cap, 1000000.0, 1.0);
      DivGe(cap, 1000000000.0, 1.0);
      DivLe(cap, 1000000.0, 1000.0);
    }
  }

  /** `format_gem_message` without its wording: the penny tag, the cap band,
      and up to two sample posts cut to 80 characters and marked `...`. */
  datatype GemMessage = GemMessage(ticker: string, penny: bool, cap: CapText, samples: seq<string>)

  function SampleLine(post: string): string
  {
    Take(post, 80) + "..."
  }

  function GemMessageOf(g: GemStock): (m: GemMessage)
    ensures |m.samples| == if |g.samplePosts| < 2 then |g.samplePosts| else 2
    ensures forall k :: 0 <= k < |m.samples| ==>
              m.samples[k] == Take(g.samplePosts[k], 80) + "..." && |m.samples[k]| <= 83
  {
    var posts := Take(g.samplePosts, 2);
    GemMessage(g.ticker, g.isPennyStock, CapTextOf(g.marketCap),
               seq(|posts|, k requires 0 <= k < |posts| => SampleLine(posts[k])))
  }

  /** The lines of `format_gems_summary`. */
  datatype SummaryLine =
    | NoGems
    | Header
    | GemLine(rank: nat, ticker: string, penny: bool, price: real, mentions: nat, spike: real, capMillions: real)
    | AnalyzeHint

  const SummaryShown: nat := 5

  function GemLineOf(rank: nat, g: GemStock): SummaryLine
  {
    GemLine(rank, g.ticker, g.isPennyStock, g.price, g.mentionCount, g.volumeSpike, g.marketCap / 1000000.0)
  }

  function FormatGemsSummary(gems: seq<GemStock>): seq<SummaryLine>
  {
    if gems == [] then [NoGems]
    else
      var shown := Take(gems, SummaryShown);
      [Header] + seq(|shown|, k requires 0 <= k < |shown| => GemLineOf(k + 1, shown[k])) + [AnalyzeHint]
  }

  /** The summary lists the first five gems at most, numbered from 1 in
      order, between the header and the hint. */
  lemma SummaryShape(gems: seq<GemStock>)
    ensures gems == [] <==> FormatGemsSummary(gems) == [NoGems]
    ensures gems != [] ==> var lines := FormatGemsSummary(gems);
      var n := if |gems| < 5 then |gems| else 5;
      && |lines| == n + 2 && lines[0] == Header && lines[n + 1] == AnalyzeHint
      && forall k :: 0 <= k < n ==> lines[k + 1] == GemLineOf(k + 1, gems[k])
  {
    if gems != [] {
      var shown := Take(gems, SummaryShown);
      var mid := seq(|shown|, k requires 0 <= k < |shown| => GemLineOf(k + 1, shown[k]));
      var lines := [Header] + mid + [AnalyzeHint];
      assert FormatGemsSummary(gems) == lines;
      forall k | 0 <= k < |shown|
        ensures lines[k + 1] == GemLineOf(k + 1, gems[k])
      {
        assert lines[k + 1] == mid[k];
      }
    }
  }
}
