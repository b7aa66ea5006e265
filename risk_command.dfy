/** The risk metrics of `src/bot/commands/risk.py`: position weights, sector
    concentration, top-two concentration, portfolio beta, pairwise
    correlations, upcoming earnings, the additive risk score, its bands and
    the recommendation list. Market data arrives as a map per fetched
    symbol; the return-series correlation and the number of common dates of
    a pair are the parameters `corr` and `common`. */
module RiskCommand {
  import opened Wrappers
  import opened Dicts

  /** One portfolio entry: symbol and invested amount. */
  datatype Holding = Holding(symbol: string, value: real)

  /** What was fetched for a symbol; `earningsDays` is the number of days
      until the earnings date, None when there is none or it could not be
      read. */
  datatype SymbolData = SymbolData(sector: string, beta: real, hasReturns: bool, earningsDays: Option<int>)

  // ---------------------------------------------------------------------------
  // sums and weights

  function Values(hs: seq<Holding>): (vs: seq<real>)
    ensures |vs| == |hs| && forall i :: 0 <= i < |hs| ==> vs[i] == hs[i].value
  {
    seq(|hs|, i requires 0 <= i < |hs| => hs[i].value)
  }

  /** `weights`: each value as a share of the total. */
  function Weights(hs: seq<Holding>, total: real): (ws: seq<real>)
    requires hs == [] || total != 0.0
    ensures |ws| == |hs|
    ensures forall i :: 0 <= i < |hs| ==> ws[i] * total == hs[i].value
  {
    seq(|hs|, i requires 0 <= i < |hs| => hs[i].value / total)
  }

  lemma {:induction false} WeightsScale(hs: seq<Holding>, total: real)
    requires total != 0.0
    ensures Sum(Weights(hs, total)) * total == Sum(Values(hs))
    decreases |hs|
  {
    if hs != [] {
      var n := |hs| - 1;
      assert Weights(hs, total)[..n] == Weights(hs[..n], total);
      assert Values(hs)[..n] == Values(hs[..n]);
      WeightsScale(hs[..n], total);
    }
  }

  /** The weights add up to one. */
  lemma WeightsSumToOne(hs: seq<Holding>)
    requires Sum(Values(hs)) != 0.0
    ensures Sum(Weights(hs, Sum(Values(hs)))) == 1.0
  {
    var t := Sum(Values(hs));
    WeightsScale(hs, t);
    DivOfProduct(Sum(Values(hs)), Sum(Weights(hs, t)), t);
    DivOfProduct(Sum(Values(hs)), 1.0, t);
  }

  // ---------------------------------------------------------------------------
  // sector concentration

  predicate Fetched(h: Holding, data: map<string, SymbolData>)
  {
    h.symbol in data
  }

  /** `sector_weights` after the loop over the first |hs| holdings. */
  function SectorWeightsOf(hs: seq<Holding>, ws: seq<real>, data: map<string, SymbolData>): seq<Entry>
    requires |ws| == |hs|
    decreases |hs|
  {
    if hs == [] then []
    else
      var n := |hs| - 1;
      var prev := SectorWeightsOf(hs[..n], ws[..n], data);
      if Fetched(hs[n], data) then AddTo(prev, data[hs[n].symbol].sector, ws[n]) else prev
  }

  /** The total weight of the fetched holdings in `sector`. */
  function SectorShare(hs: seq<Holding>, ws: seq<real>, data: map<string, SymbolData>, sector: string): real
    requires |ws| == |hs|
    decreases |hs|
  {
    if hs == [] then 0.0
    else
      var n := |hs| - 1;
      SectorShare(hs[..n], ws[..n], data, sector)
      + if Fetched(hs[n], data) && data[hs[n].symbol].sector == sector then ws[n] else 0.0
  }

  predicate HasSector(hs: seq<Holding>, data: map<string, SymbolData>, sector: string)
  {
    exists i :: 0 <= i < |hs| && Fetched(hs[i], data) && data[hs[i].symbol].sector == sector
  }

  /** A sector has an entry exactly when a fetched holding is in it, and the
      entry is that sector's total weight; unfetched symbols count nowhere. */
  lemma {:induction false} SectorWeightsMeaning(hs: seq<Holding>, ws: seq<real>, data: map<string, SymbolData>,
                                                sector: string)
    requires |ws| == |hs|
    ensures Lookup(SectorWeightsOf(hs, ws, data), sector)
            == if HasSector(hs, data, sector) then Some(SectorShare(hs, ws, data, sector)) else None
    decreases |hs|
  {
    if hs != [] {
      var n := |hs| - 1;
      SectorWeightsMeaning(hs[..n], ws[..n], data, sector);
      var prev := SectorWeightsOf(hs[..n], ws[..n], data);
      if Fetched(hs[n], data) {
        LookupAddTo(prev, data[hs[n].symbol].sector, ws[n], sector);
      }
      HasSectorSnoc(hs, data, sector);
      if !HasSector(hs[..n], data, sector) {
        ShareWithoutSector(hs[..n], ws[..n], data, sector);
      }
    }
  }

  lemma HasSectorSnoc(hs: seq<Holding>, data: map<string, SymbolData>, sector: string)
    requires hs != []
    ensures HasSector(hs, data, sector) <==>
              HasSector(hs[..|hs| - 1], data, sector)
              || (Fetched(hs[|hs| - 1], data) && data[hs[|hs| - 1].symbol].sector == sector)
  {
    var n := |hs| - 1;
    assert forall i :: 0 <= i < n ==> hs[..n][i] == hs[i];
  }

  lemma {:induction false} ShareWithoutSector(hs: seq<Holding>, ws: seq<real>, data: map<string, SymbolData>,
                                              sector: string)
    requires |ws| == |hs| && !HasSector(hs, data, sector)
    ensures SectorShare(hs, ws, data, sector) == 0.0
    decreases |hs|
  {
    if hs != [] {
      HasSectorSnoc(hs, data, sector);
      ShareWithoutSector(hs[..|hs| - 1], ws[..|hs| - 1], data, sector);
    }
  }

  /** The accumulation loop over `weights.items()`. */
  method SectorWeights(hs: seq<Holding>, ws: seq<real>, data: map<string, SymbolData>) returns (sw: seq<Entry>)
    requires |ws| == |hs|
    ensures sw == SectorWeightsOf(hs, ws, data)
  {
    sw := [];
    for i := 0 to |hs|
      invariant sw == SectorWeightsOf(hs[..i], ws[..i], data)
    {
      assert hs[..i + 1][..i] == hs[..i] && ws[..i + 1][..i] == ws[..i];
      if hs[i].symbol in data {
        sw := AddTo(sw, data[hs[i].symbol].sector, ws[i]);
      }
    }
    assert hs[..|hs|] == hs && ws[..|ws|] == ws;
  }

  /** `max(sector_weights.values())`, 0 when there are no sectors. */
  function MaxWeight(es: seq<Entry>): (m: real)
    ensures es == [] ==> m == 0.0
    ensures es != [] ==> (exists i :: 0 <= i < |es| && es[i].value == m)
    ensures forall i :: 0 <= i < |es| ==> es[i].value <= m
  {
    if es == [] then 0.0
    else if |es| == 1 then es[0].value
    else
      var m := MaxWeight(es[1..]);
      assert es[1..][0] == es[1];
      if es[0].value >= m then es[0].value else m
  }

  // ---------------------------------------------------------------------------
  // top-two concentration

  /** The positions of the largest and the second-largest weight. */
  function TopTwo(ws: seq<real>): (r: (nat, nat))
    requires |ws| >= 2
    ensures r.0 < |ws| && r.1 < |ws| && r.0 != r.1
    ensures forall k :: 0 <= k < |ws| ==> ws[k] <= ws[r.0]
    ensures forall k :: 0 <= k < |ws| && k != r.0 ==> ws[k] <= ws[r.1]
    decreases |ws|
  {
    if |ws| == 2 then (if ws[0] >= ws[1] then (0, 1) else (1, 0))
    else
      var n := |ws| - 1;
      var p := TopTwo(ws[..n]);
      assert ws[..n][p.0] == ws[p.0] && ws[..n][p.1] == ws[p.1];
      assert forall k :: 0 <= k < n ==> ws[..n][k] == ws[k];
      if ws[n] > ws[p.0] then (n, p.0)
      else if ws[n] > ws[p.1] then (p.0, n)
      else p
  }

  /** `top_2_concentration`: the sum of the two largest weights, 1.0 with
      fewer than two holdings. */
  function Top2Concentration(ws: seq<real>): real
  {
    if |ws| >= 2 then var p := TopTwo(ws); ws[p.0] + ws[p.1] else 1.0
  }

  /** The top-two sum is attained by two distinct holdings and no two
      distinct holdings weigh more together. */
  lemma Top2IsLargestPair(ws: seq<real>)
    requires |ws| >= 2
    ensures exists i, j :: 0 <= i < |ws| && 0 <= j < |ws| && i != j && ws[i] + ws[j] == Top2Concentration(ws)
    ensures forall i, j :: 0 <= i < |ws| && 0 <= j < |ws| && i != j ==> ws[i] + ws[j] <= Top2Concentration(ws)
  {
    var p := TopTwo(ws);
    assert ws[p.0] + ws[p.1] == Top2Concentration(ws);
    forall i, j | 0 <= i < |ws| && 0 <= j < |ws| && i != j
      ensures ws[i] + ws[j] <= Top2Concentration(ws)
    {
      if i != p.0 {
        assert ws[i] <= ws[p.1] && ws[j] <= ws[p.0];
      } else {
        assert ws[j] <= ws[p.1];
      }
    }
  }

  // ---------------------------------------------------------------------------
  // beta

  /** `portfolio_beta`: Σ weight·beta over the fetched symbols. */
  function PortfolioBeta(hs: seq<Holding>, ws: seq<real>, data: map<string, SymbolData>): real
    requires |ws| == |hs|
    decreases |hs|
  {
    if hs == [] then 0.0
    else
      var n := |hs| - 1;
      PortfolioBeta(hs[..n], ws[..n], data)
      + if Fetched(hs[n], data) then ws[n] * data[hs[n].symbol].beta else 0.0
  }

  /** When every holding was fetched with the same beta b, the portfolio
      beta is b times the total weight. */
  lemma {:induction false} UniformBeta(hs: seq<Holding>, ws: seq<real>, data: map<string, SymbolData>, b: real)
    requires |ws| == |hs|
    requires forall i :: 0 <= i < |hs| ==> Fetched(hs[i], data) && data[hs[i].symbol].beta == b
    ensures PortfolioBeta(hs, ws, data) == b * Sum(ws)
    decreases |hs|
  {
    if hs != [] {
      var n := |hs| - 1;
      UniformBeta(hs[..n], ws[..n], data, b);
    }
  }

  /** So with a positive total, a portfolio of beta-b symbols has beta b. */
  lemma UniformPortfolioBeta(hs: seq<Holding>, data: map<string, SymbolData>, b: real)
    requires Sum(Values(hs)) != 0.0
    requires forall i :: 0 <= i < |hs| ==> Fetched(hs[i], data) && data[hs[i].symbol].beta == b
    ensures PortfolioBeta(hs, Weights(hs, Sum(Values(hs))), data) == b
  {
    var ws := Weights(hs, Sum(Values(hs)));
    UniformBeta(hs, ws, data, b);
    WeightsSumToOne(hs);
  }

  // ---------------------------------------------------------------------------
  // correlations

  /** `symbols_with_returns`: the fetched symbols with a return series, in
      portfolio order. */
  function ReturnSymbols(hs: seq<Holding>, data: map<string, SymbolData>): (syms: seq<string>)
    ensures forall s :: s in syms ==> s in data && data[s].hasReturns
    decreases |hs|
  {
    if hs == [] then []
    else
      var n := |hs| - 1;
      ReturnSymbols(hs[..n], data)
      + if hs[n].symbol in data && data[hs[n].symbol].hasReturns then [hs[n].symbol] else []
  }

  datatype Pair = Pair(first: string, second: string)

  /** The pairs of the inner loop for position i: (s_i, s_j) for j > i. */
  function Row(syms: seq<string>, i: nat): (ps: seq<Pair>)
    requires i < |syms|
    ensures |ps| == |syms| - i - 1
    ensures forall k :: 0 <= k < |ps| ==> ps[k] == Pair(syms[i], syms[i + 1 + k])
  {
    seq(|syms| - i - 1, k requires 0 <= k < |syms| - i - 1 => Pair(syms[i], syms[i + 1 + k]))
  }

  /** The pairs of the first n rows, in loop order. */
  function PairsUpTo(syms: seq<string>, n: nat): (ps: seq<Pair>)
    requires n <= |syms|
    ensures forall p :: p in ps ==> exists i, j :: 0 <= i < j < |syms| && p == Pair(syms[i], syms[j])
  {
    if n == 0 then []
    else
      var prev := PairsUpTo(syms, n - 1);
      var row := Row(syms, n - 1);
      assert forall p :: p in row ==> exists j :: n - 1 < j < |syms| && p == Pair(syms[n - 1], syms[j]);
      prev + row
  }

  /** The dict key of a pair. */
  function PairKey(p: Pair): string
  {
    p.first + "-" + p.second
  }

  /** One step of the loop body: record the pair when it has more than 20
      common dates. */
  function Record(es: seq<Entry>, p: Pair, common: (string, string) -> nat, corr: (string, string) -> real)
    : seq<Entry>
  {
    if common(p.first, p.second) > 20 then Put(es, PairKey(p), corr(p.first, p.second)) else es
  }

  function RecordAll(es: seq<Entry>, ps: seq<Pair>, common: (string, string) -> nat, corr: (string, string) -> real)
    : seq<Entry>
    decreases |ps|
  {
    if ps == [] then es
    else Record(RecordAll(es, ps[..|ps| - 1], common, corr), ps[|ps| - 1], common, corr)
  }

  lemma RecordAllSnoc(es: seq<Entry>, ps: seq<Pair>, p: Pair, common: (string, string) -> nat,
                      corr: (string, string) -> real)
    ensures RecordAll(es, ps + [p], common, corr) == Record(RecordAll(es, ps, common, corr), p, common, corr)
  {
    assert (ps + [p])[..|ps|] == ps;
  }

  /** The `correlations` dict. */
  function CorrelationsOf(syms: seq<string>, common: (string, string) -> nat, corr: (string, string) -> real)
    : seq<Entry>
  {
    if |syms| >= 2 then RecordAll([], PairsUpTo(syms, |syms|), common, corr) else []
  }

  /** Every recorded key is a pair with more than 20 common dates, holding
      that pair's correlation; and every such pair's key is recorded. */
  lemma RecordAllMeaning(ps: seq<Pair>, common: (string, string) -> nat,
                         corr: (string, string) -> real, k: string)
    ensures Lookup(RecordAll([], ps, common, corr), k).Some? ==>
              exists p :: p in ps && PairKey(p) == k && common(p.first, p.second) > 20
                          && Lookup(RecordAll([], ps, common, corr), k).value == corr(p.first, p.second)
    ensures (exists p :: p in ps && PairKey(p) == k && common(p.first, p.second) > 20) ==>
              Lookup(RecordAll([], ps, common, corr), k).Some?
  {
    RecordedFromPairs(ps, common, corr, k);
    PairsRecorded(ps, common, corr, k);
  }

  /** A recorded key comes from a pair with more than 20 common dates and
      holds that pair's correlation. */
  lemma {:induction false} RecordedFromPairs(ps: seq<Pair>, common: (string, string) -> nat,
                                             corr: (string, string) -> real, k: string)
    ensures Lookup(RecordAll([], ps, common, corr), k).Some? ==>
              exists p :: p in ps && PairKey(p) == k && common(p.first, p.second) > 20
                          && Lookup(RecordAll([], ps, common, corr), k).value == corr(p.first, p.second)
    decreases |ps|
  {
    if ps != [] {
      var n := |ps| - 1;
      var prev := RecordAll([], ps[..n], common, corr);
      var p := ps[n];
      assert RecordAll([], ps, common, corr) == Record(prev, p, common, corr);
      RecordedFromPairs(ps[..n], common, corr, k);
      if common(p.first, p.second) > 20 {
        LookupPut(prev, PairKey(p), corr(p.first, p.second), k);
      }
      if Lookup(prev, k).Some? && !(common(p.first, p.second) > 20 && PairKey(p) == k) {
        var q :| q in ps[..n] && PairKey(q) == k && common(q.first, q.second) > 20
                 && Lookup(prev, k).value == corr(q.first, q.second);
        assert q in ps;
      }
    }
  }

  /** Every pair with more than 20 common dates has its key recorded. */
  lemma {:induction false} PairsRecorded(ps: seq<Pair>, common: (string, string) -> nat,
                                         corr: (string, string) -> real, k: string)
    ensures (exists p :: p in ps && PairKey(p) == k && common(p.first, p.second) > 20) ==>
              Lookup(RecordAll([], ps, common, corr), k).Some?
    decreases |ps|
  {
    if ps != [] {
      var n := |ps| - 1;
      var prev := RecordAll([], ps[..n], common, corr);
      var p := ps[n];
      assert RecordAll([], ps, common, corr) == Record(prev, p, common, corr);
      PairsRecorded(ps[..n], common, corr, k);
      if common(p.first, p.second) > 20 {
        LookupPut(prev, PairKey(p), corr(p.first, p.second), k);
      }
      if exists q :: q in ps && PairKey(q) == k && common(q.first, q.second) > 20 {
        var q :| q in ps && PairKey(q) == k && common(q.first, q.second) > 20;
        if q != p {
          assert q in ps[..n];
        }
      }
    }
  }

  /** The nested loop over the pairs i < j of `symbols_with_returns`. */
  method Correlations(syms: seq<string>, common: (string, string) -> nat, corr: (string, string) -> real)
    returns (cs: seq<Entry>)
    ensures cs == CorrelationsOf(syms, common, corr)
  {
    cs := [];
    if |syms| >= 2 {
      for i := 0 to |syms|
        invariant cs == RecordAll([], PairsUpTo(syms, i), common, corr)
      {
        cs := CorrelateRow(syms, i, PairsUpTo(syms, i), cs, common, corr);
        assert PairsUpTo(syms, i + 1) == PairsUpTo(syms, i) + Row(syms, i);
      }
    }
  }

  /** The inner loop for position i, after the pairs `done`. */
  method CorrelateRow(syms: seq<string>, i: nat, ghost done: seq<Pair>, cs0: seq<Entry>,
                      common: (string, string) -> nat, corr: (string, string) -> real)
    returns (cs: seq<Entry>)
    requires i < |syms| && cs0 == RecordAll([], done, common, corr)
    ensures cs == RecordAll([], done + Row(syms, i), common, corr)
  {
    cs := cs0;
    var row := Row(syms, i);
    assert done + row[..0] == done;
    for j := i + 1 to |syms|
      invariant cs == RecordAll([], done + row[..j - i - 1], common, corr)
    {
      RowStep(syms, i, j, done, cs, common, corr);
      if common(syms[i], syms[j]) > 20 {
        cs := Put(cs, syms[i] + "-" + syms[j], corr(syms[i], syms[j]));
      }
    }
    assert row[..|syms| - i - 1] == row;
  }

  /** One pass of the inner loop records the next pair of the row. */
  lemma RowStep(syms: seq<string>, i: nat, j: nat, done: seq<Pair>, cs: seq<Entry>,
                common: (string, string) -> nat, corr: (string, string) -> real)
    requires i < j < |syms| && cs == RecordAll([], done + Row(syms, i)[..j - i - 1], common, corr)
    ensures Record(cs, Pair(syms[i], syms[j]), common, corr) == RecordAll([], done + Row(syms, i)[..j - i], common, corr)
  {
    var row := Row(syms, i);
    assert row[..j - i] == row[..j - i - 1] + [Pair(syms[i], syms[j])];
    RecordAllSnoc([], done + row[..j - i - 1], Pair(syms[i], syms[j]), common, corr);
    assert done + row[..j - i] == done + row[..j - i - 1] + [Pair(syms[i], syms[j])];
  }

  /** `avg_correlation`: the mean value, 0 without pairs. */
  function Mean(vs: seq<real>): real
  {
    if vs == [] then 0.0 else Sum(vs) / (|vs| as real)
  }

  /** `high_correlations`: the entries above 0.7, in order. */
  function HighCorrelations(es: seq<Entry>): (hs: seq<Entry>)
    ensures forall e :: e in hs <==> e in es && e.value > 0.7
    decreases |es|
  {
    if es == [] then []
    else
      var n := |es| - 1;
      HighCorrelations(es[..n]) + if es[n].value > 0.7 then [es[n]] else []
  }

  // ---------------------------------------------------------------------------
  // upcoming earnings

  datatype Earnings = Earnings(symbol: string, days: int)

  /** `upcoming_earnings` over the first |hs| holdings: the fetched symbols
      whose earnings are 0 to 14 days ahead, in order. */
  function UpcomingEarningsOf(hs: seq<Holding>, data: map<string, SymbolData>): seq<Earnings>
    decreases |hs|
  {
    if hs == [] then []
    else
      var n := |hs| - 1;
      var s := hs[n].symbol;
      UpcomingEarningsOf(hs[..n], data)
      + if s in data && data[s].earningsDays.Some? && 0 <= data[s].earningsDays.value <= 14
        then [Earnings(s, data[s].earningsDays.value)] else []
  }

  /** A symbol is listed exactly when it was fetched with earnings 0 to 14
      days ahead, and with those days. */
  lemma {:induction false} UpcomingEarningsMeaning(hs: seq<Holding>, data: map<string, SymbolData>, e: Earnings)
    ensures e in UpcomingEarningsOf(hs, data) <==>
              (exists i :: 0 <= i < |hs| && hs[i].symbol == e.symbol)
              && e.symbol in data && data[e.symbol].earningsDays == Some(e.days) && 0 <= e.days <= 14
    decreases |hs|
  {
    if hs != [] {
      var n := |hs| - 1;
      UpcomingEarningsMeaning(hs[..n], data, e);
      if exists i :: 0 <= i < n && hs[..n][i].symbol == e.symbol {
        var i :| 0 <= i < n && hs[..n][i].symbol == e.symbol;
        assert hs[i].symbol == e.symbol;
      }
      if exists i :: 0 <= i < |hs| && hs[i].symbol == e.symbol {
        var i :| 0 <= i < |hs| && hs[i].symbol == e.symbol;
        if i < n {
          assert hs[..n][i].symbol == e.symbol;
        }
      }
    }
  }

  /** The loop over `portfolio_data` collecting upcoming earnings. */
  method UpcomingEarnings(hs: seq<Holding>, data: map<string, SymbolData>) returns (ue: seq<Earnings>)
    ensures ue == UpcomingEarningsOf(hs, data)
  {
    ue := [];
    for i := 0 to |hs|
      invariant ue == UpcomingEarningsOf(hs[..i], data)
    {
      assert hs[..i + 1][..i] == hs[..i];
      var s := hs[i].symbol;
      if s in data && data[s].earningsDays.Some? {
        var days := data[s].earningsDays.value;
        if 0 <= days <= 14 {
          ue := ue + [Earnings(s, days)];
        }
      }
    }
    assert hs[..|hs|] == hs;
  }

  // ---------------------------------------------------------------------------
  // risk score

  function SectorPoints(maxSectorWeight: real): int
  {
    if maxSectorWeight > 0.8 then 25 else if maxSectorWeight > 0.6 then 15 else if maxSectorWeight > 0.4 then 5 else 0
  }

  function BetaPoints(beta: real): int
  {
    if beta > 1.5 then 15 else if beta > 1.2 then 10 else 0
  }

  function CorrelationPoints(avg: real): int
  {
    if avg > 0.7 then 10 else if avg > 0.5 then 5 else 0
  }

  function ConcentrationPoints(top2: real): int
  {
    if top2 > 0.7 then 10 else 0
  }

  /** The score before clamping. */
  function RawScore(maxSectorWeight: real, beta: real, avgCorrelation: real, earnings: nat, top2: real): int
  {
    50 + SectorPoints(maxSectorWeight) + BetaPoints(beta) + CorrelationPoints(avgCorrelation) + earnings * 3
    + ConcentrationPoints(top2)
  }

  /** The step-by-step score, clamped to [0, 100]. */
  method RiskScore(maxSectorWeight: real, beta: real, avgCorrelation: real, earnings: nat, top2: real)
    returns (score: int)
    ensures 50 <= score <= 100
    ensures score == if RawScore(maxSectorWeight, beta, avgCorrelation, earnings, top2) > 100 then 100
                     else RawScore(maxSectorWeight, beta, avgCorrelation, earnings, top2)
  {
    score := 50;
    if maxSectorWeight > 0.8 {
      score := score + 25;
    } else if maxSectorWeight > 0.6 {
      score := score + 15;
    } else if maxSectorWeight > 0.4 {
      score := score + 5;
    }
    if beta > 1.5 {
      score := score + 15;
    } else if beta > 1.2 {
      score := score + 10;
    }
    if avgCorrelation > 0.7 {
      score := score + 10;
    } else if avgCorrelation > 0.5 {
      score := score + 5;
    }
    score := score + earnings * 3;
    if top2 > 0.7 {
      score := score + 10;
    }
    score := if 100 < (if 0 > score then 0 else score) then 100 else (if 0 > score then 0 else score);
  }

  function Clamped(raw: int): int
  {
    if raw > 100 then 100 else if raw < 0 then 0 else raw
  }

  /** The clamped score lies in [50, 100]: the base is 50 and every factor
      only adds. */
  lemma ScoreBounds(maxSectorWeight: real, beta: real, avgCorrelation: real, earnings: nat, top2: real)
    ensures 50 <= Clamped(RawScore(maxSectorWeight, beta, avgCorrelation, earnings, top2)) <= 100
  {
  }

  /** More concentration, beta, correlation, earnings or top-two weight never
      lowers the score. */
  lemma ScoreMonotone(m1: real, b1: real, c1: real, e1: nat, t1: real,
                      m2: real, b2: real, c2: real, e2: nat, t2: real)
    requires m1 <= m2 && b1 <= b2 && c1 <= c2 && e1 <= e2 && t1 <= t2
    ensures Clamped(RawScore(m1, b1, c1, e1, t1)) <= Clamped(RawScore(m2, b2, c2, e2, t2))
  {
  }

  /** `risk_level` of the report. */
  datatype RiskLevel = Low | Moderate | Elevated | High

  function RiskLevelOf(score: int): (l: RiskLevel)
    ensures l == Low <==> score <= 30
    ensures l == Moderate <==> 30 < score <= 50
    ensures l == Elevated <==> 50 < score <= 70
    ensures l == High <==> score > 70
  {
    if score <= 30 then Low else if score <= 50 then Moderate else if score <= 70 then Elevated else High
  }

  /** Since the score starts at 50, the lowest band is never reached. */
  lemma NeverLowRisk(maxSectorWeight: real, beta: real, avgCorrelation: real, earnings: nat, top2: real)
    ensures RiskLevelOf(Clamped(RawScore(maxSectorWeight, beta, avgCorrelation, earnings, top2))) != Low
  {
    ScoreBounds(maxSectorWeight, beta, avgCorrelation, earnings, top2);
  }

  // ---------------------------------------------------------------------------
  // _calculate_risk_metrics

  datatype RiskMetrics = RiskMetrics(
    riskScore: int,
    sectorWeights: seq<Entry>,
    maxSectorWeight: real,
    sectorConcentrationOk: bool,
    top2Concentration: real,
    portfolioBeta: real,
    correlations: seq<Entry>,
    highCorrelations: seq<Entry>,
    avgCorrelation: real,
    upcomingEarnings: seq<Earnings>,
    totalValue: real)

  /** The metrics dict for a portfolio whose total is not zero. */
  function MetricsOf(hs: seq<Holding>, data: map<string, SymbolData>, maxSectorConcentration: real,
                     common: (string, string) -> nat, corr: (string, string) -> real): RiskMetrics
    requires hs == [] || Sum(Values(hs)) != 0.0
  {
    var total := Sum(Values(hs));
    var ws := Weights(hs, total);
    var sw := SectorWeightsOf(hs, ws, data);
    var msw := MaxWeight(sw);
    var top2 := Top2Concentration(ws);
    var beta := PortfolioBeta(hs, ws, data);
    var cs := CorrelationsOf(ReturnSymbols(hs, data), common, corr);
    var avg := Mean(ValuesOf(cs));
    var ue := UpcomingEarningsOf(hs, data);
    RiskMetrics(Clamped(RawScore(msw, beta, avg, |ue|, top2)), sw, msw, msw <= maxSectorConcentration, top2, beta,
                cs, HighCorrelations(cs), avg, ue, total)
  }

  /** `_calculate_risk_metrics`; a zero total divides by zero. */
  method CalculateRiskMetrics(hs: seq<Holding>, data: map<string, SymbolData>, maxSectorConcentration: real,
                              common: (string, string) -> nat, corr: (string, string) -> real)
    returns (r: Result<RiskMetrics, PyError>)
    ensures r.Err? <==> hs != [] && Sum(Values(hs)) == 0.0
    ensures r.Err? ==> r.error == ZeroDivisionError
    ensures r.Ok? ==> r.value == MetricsOf(hs, data, maxSectorConcentration, common, corr)
  {
    var total := Sum(Values(hs));
    if hs != [] && total == 0.0 {
      return Err(ZeroDivisionError);
    }
    var ws := Weights(hs, total);
    var sw := SectorWeights(hs, ws, data);
    var msw := MaxWeight(sw);
    var top2 := Top2Concentration(ws);
    var beta := PortfolioBeta(hs, ws, data);
    var cs := Correlations(ReturnSymbols(hs, data), common, corr);
    var avg := Mean(ValuesOf(cs));
    var ue := UpcomingEarnings(hs, data);
    var score := RiskScore(msw, beta, avg, |ue|, top2);
    r := Ok(RiskMetrics(score, sw, msw, msw <= maxSectorConcentration, top2, beta, cs, HighCorrelations(cs), avg, ue,
                        total));
  }

  /** Two equal fetched positions in one sector: all weight is in that
      sector and in the top two, so the score is at least 85. */
  lemma TwoEqualPositionsInOneSector(a: string, b: string, v: real, data: map<string, SymbolData>,
                                     maxSectorConcentration: real, common: (string, string) -> nat,
                                     corr: (string, string) -> real)
    requires v > 0.0 && a in data && b in data && data[a].sector == data[b].sector
    ensures var hs := [Holding(a, v), Holding(b, v)];
            Sum(Values(hs)) != 0.0
            && MetricsOf(hs, data, maxSectorConcentration, common, corr).maxSectorWeight == 1.0
            && MetricsOf(hs, data, maxSectorConcentration, common, corr).top2Concentration == 1.0
            && MetricsOf(hs, data, maxSectorConcentration, common, corr).riskScore >= 85
  {
    var hs := [Holding(a, v), Holding(b, v)];
    TwoEqualWeights(a, b, v);
    TwoInOneSector(a, b, data);
    assert SectorWeightsOf(hs, [0.5, 0.5], data) == [Entry(data[a].sector, 1.0)];
    HalvesInOneSector(hs, data[a].sector, data, maxSectorConcentration, common, corr);
  }

  /** Two halves in one sector give the whole weight to that sector and to
      the top two. */
  lemma HalvesInOneSector(hs: seq<Holding>, sector: string, data: map<string, SymbolData>,
                          maxSectorConcentration: real, common: (string, string) -> nat,
                          corr: (string, string) -> real)
    requires Sum(Values(hs)) != 0.0 && Weights(hs, Sum(Values(hs))) == [0.5, 0.5]
    requires SectorWeightsOf(hs, [0.5, 0.5], data) == [Entry(sector, 1.0)]
    ensures MetricsOf(hs, data, maxSectorConcentration, common, corr).maxSectorWeight == 1.0
    ensures MetricsOf(hs, data, maxSectorConcentration, common, corr).top2Concentration == 1.0
    ensures MetricsOf(hs, data, maxSectorConcentration, common, corr).riskScore >= 85
  {
    assert MaxWeight([Entry(sector, 1.0)]) == 1.0;
    assert TopTwo([0.5, 0.5]) == (0, 1);
    assert Top2Concentration([0.5, 0.5]) == 1.0;
    MetricsParts(hs, data, maxSectorConcentration, common, corr);
    var m := MetricsOf(hs, data, maxSectorConcentration, common, corr);
    ConcentratedScore(m.portfolioBeta, m.avgCorrelation, |m.upcomingEarnings|);
  }

  lemma MetricsParts(hs: seq<Holding>, data: map<string, SymbolData>, maxSectorConcentration: real,
                     common: (string, string) -> nat, corr: (string, string) -> real)
    requires hs == [] || Sum(Values(hs)) != 0.0
    ensures var m := MetricsOf(hs, data, maxSectorConcentration, common, corr);
            var ws := Weights(hs, Sum(Values(hs)));
            && m.maxSectorWeight == MaxWeight(SectorWeightsOf(hs, ws, data))
            && m.top2Concentration == Top2Concentration(ws)
            && m.riskScore == Clamped(RawScore(m.maxSectorWeight, m.portfolioBeta, m.avgCorrelation,
                                               |m.upcomingEarnings|, m.top2Concentration))
  {
  }

  lemma ConcentratedScore(beta: real, avg: real, earnings: nat)
    ensures Clamped(RawScore(1.0, beta, avg, earnings, 1.0)) >= 85
  {
  }

  lemma TwoEqualWeights(a: string, b: string, v: real)
    requires v > 0.0
    ensures Sum(Values([Holding(a, v), Holding(b, v)])) == v + v
    ensures Weights([Holding(a, v), Holding(b, v)], v + v) == [0.5, 0.5]
  {
    var vs := Values([Holding(a, v), Holding(b, v)]);
    assert vs == [v, v];
    assert vs[..1] == [v] && [v][..0] == [];
    assert Sum([v]) == v;
    DivOfProduct(v, 0.5, v + v);
  }

  lemma TwoInOneSector(a: string, b: string, data: map<string, SymbolData>)
    requires a in data && b in data && data[a].sector == data[b].sector
    ensures forall v :: SectorWeightsOf([Holding(a, v), Holding(b, v)], [0.5, 0.5], data)
                        == [Entry(data[a].sector, 1.0)]
  {
    forall v
      ensures SectorWeightsOf([Holding(a, v), Holding(b, v)], [0.5, 0.5], data) == [Entry(data[a].sector, 1.0)]
    {
      var hs := [Holding(a, v), Holding(b, v)];
      var ws := [0.5, 0.5];
      assert hs[..1] == [Holding(a, v)] && ws[..1] == [0.5];
      assert hs[..1][..0] == [] && ws[..1][..0] == [];
      assert SectorWeightsOf(hs[..1], ws[..1], data) == [Entry(data[a].sector, 0.5)];
    }
  }

  // ---------------------------------------------------------------------------
  // _generate_recommendations

  /** A recommendation line; the numbers are what its text shows. */
  datatype Recommendation =
    | ReduceSector(sector: string, weight: real, maxAllowed: real)
    | HighCorrelation(pairs: seq<string>)
    | VolatileBeta(beta: real)
    | EarningsSoon(symbols: seq<string>)
    | TopTwoConcentrated
    | WellDiversified

  function SectorRecommendations(sw: seq<Entry>, maxAllowed: real): (rs: seq<Recommendation>)
    ensures forall r :: r in rs ==> r.ReduceSector?
    ensures rs == [] <==> forall e :: e in sw ==> e.value <= maxAllowed
    ensures forall r :: r in rs <==> exists e :: e in sw && e.value > maxAllowed
                                            && r == ReduceSector(e.key, e.value, maxAllowed)
    decreases |sw|
  {
    if sw == [] then []
    else
      var n := |sw| - 1;
      var prev := SectorRecommendations(sw[..n], maxAllowed);
      assert forall e :: e in sw <==> e in sw[..n] || e == sw[n];
      prev + if sw[n].value > maxAllowed then [ReduceSector(sw[n].key, sw[n].value, maxAllowed)] else []
  }

  function Symbols(ue: seq<Earnings>): (ss: seq<string>)
    ensures |ss| == |ue| && forall i :: 0 <= i < |ue| ==> ss[i] == ue[i].symbol
  {
    seq(|ue|, i requires 0 <= i < |ue| => ue[i].symbol)
  }

  /** The list before the fallback, in the order the checks are made. */
  function Triggered(m: RiskMetrics, maxAllowed: real): seq<Recommendation>
  {
    SectorRecommendations(m.sectorWeights, maxAllowed)
    + (if m.highCorrelations != [] then [HighCorrelation(KeysOf(m.highCorrelations)[..if |m.highCorrelations| < 2 then |m.highCorrelations| else 2])] else [])
    + (if m.portfolioBeta > 1.5 then [VolatileBeta(m.portfolioBeta)] else [])
    + (if m.upcomingEarnings != [] then [EarningsSoon(Symbols(m.upcomingEarnings))] else [])
    + (if m.top2Concentration > 0.6 then [TopTwoConcentrated] else [])
  }

  /** The loop over the sector weights in `_generate_recommendations`. */
  method SectorLines(sw: seq<Entry>, maxAllowed: real) returns (recs: seq<Recommendation>)
    ensures recs == SectorRecommendations(sw, maxAllowed)
  {
    recs := [];
    for i := 0 to |sw|
      invariant recs == SectorRecommendations(sw[..i], maxAllowed)
    {
      assert sw[..i + 1][..i] == sw[..i];
      if sw[i].value > maxAllowed {
        recs := recs + [ReduceSector(sw[i].key, sw[i].value, maxAllowed)];
      }
    }
    assert sw[..|sw|] == sw;
  }

  /** `_generate_recommendations`. */
  method GenerateRecommendations(m: RiskMetrics, maxAllowed: real) returns (recs: seq<Recommendation>)
    ensures recs == if Triggered(m, maxAllowed) == [] then [WellDiversified] else Triggered(m, maxAllowed)
  {
    recs := SectorLines(m.sectorWeights, maxAllowed);
    var pairs := KeysOf(m.highCorrelations);
    recs := recs + if m.highCorrelations != [] then [HighCorrelation(pairs[..if |pairs| < 2 then |pairs| else 2])] else [];
    recs := recs + if m.portfolioBeta > 1.5 then [VolatileBeta(m.portfolioBeta)] else [];
    recs := recs + if m.upcomingEarnings != [] then [EarningsSoon(Symbols(m.upcomingEarnings))] else [];
    recs := recs + if m.top2Concentration > 0.6 then [TopTwoConcentrated] else [];
    if recs == [] {
      recs := [WellDiversified];
    }
  }

  /** The list is never empty; the "well diversified" line appears alone
      and only when nothing was flagged; the top-two line appears exactly
      above 60 percent. */
  lemma RecommendationsMeaning(m: RiskMetrics, maxAllowed: real)
    ensures var recs := if Triggered(m, maxAllowed) == [] then [WellDiversified] else Triggered(m, maxAllowed);
            recs != []
            && (WellDiversified in recs <==> recs == [WellDiversified])
            && (recs == [WellDiversified] <==>
                  (forall e :: e in m.sectorWeights ==> e.value <= maxAllowed) && m.highCorrelations == []
                  && m.portfolioBeta <= 1.5 && m.upcomingEarnings == [] && m.top2Concentration <= 0.6)
            && (TopTwoConcentrated in recs <==> m.top2Concentration > 0.6)
  {
    var t := Triggered(m, maxAllowed);
    var s := SectorRecommendations(m.sectorWeights, maxAllowed);
    assert WellDiversified !in s && TopTwoConcentrated !in s;
    if m.top2Concentration > 0.6 {
      assert t[|t| - 1] == TopTwoConcentrated;
    }
  }
}
