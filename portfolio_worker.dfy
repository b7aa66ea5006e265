/** The position logic of `scripts/portfolio_worker.py`: the
    `NAME-DIR-VALUE-FACTOR-KO[-PERF][-CUR]` parser, knockout proximity and
    its status bands, the original-investment arithmetic, the price each
    position is measured against, and the argument handling of `main`.
    `float()` is the parameter `toFloat`; symbol resolution is the parameter
    `resolve`. */
module PortfolioWorker {
  import opened Wrappers
  import opened JsonValue
  import opened Text

  // ---------------------------------------------------------------------------
  // parse_position

  /** A portfolio position; `symbol` is filled in once resolved. */
  datatype Position = Position(
    symbol: string,
    displayName: string,
    direction: string,
    currentValue: real,
    factor: real,
    knockoutLevel: real,
    performance: Option<real>,
    currency: string)

  const Directions: set<string> := {"LONG", "SHORT", "NORMAL"}
  const Currencies: set<string> := {"USD", "EUR"}

  /** The '-'-separated fields after "--" is rewritten to "-NEG". */
  function Fields(posStr: string): seq<string>
  {
    Split(Replace(posStr, "--", "-NEG"), "-")
  }

  /** The performance field: a "NEG" prefix negates the number after it. */
  function PerformanceOf(toFloat: string -> Option<real>, field: string): (r: Option<real>)
    ensures StartsWith(field, "NEG") ==>
              (r.Some? <==> toFloat(field[3..]).Some?) && (r.Some? ==> r.value == -toFloat(field[3..]).value)
    ensures !StartsWith(field, "NEG") ==> r == toFloat(field)
  {
    if StartsWith(field, "NEG") then
      match toFloat(field[3..])
      case Some(v) => Some(-v)
      case None => None
    else toFloat(field)
  }

  /** Performance and currency from the optional sixth and seventh fields. */
  datatype Extras = Extras(performance: Option<real>, currency: string)

  /** The optional fields; None when the performance does not parse. A sixth
      field naming a currency is the currency; otherwise it is the
      performance and a seventh field may name the currency. Further fields
      are ignored. */
  function OptionalFields(toFloat: string -> Option<real>, parts: seq<string>): (r: Option<Extras>)
    ensures r.Some? ==> r.value.currency in Currencies
    ensures |parts| <= 5 ==> r == Some(Extras(None, "USD"))
    ensures |parts| > 5 && Upper(parts[5]) in Currencies ==> r == Some(Extras(None, Upper(parts[5])))
    ensures |parts| > 5 && Upper(parts[5]) !in Currencies ==>
              (r.Some? <==> PerformanceOf(toFloat, parts[5]).Some?)
              && (r.Some? ==> r.value.performance == PerformanceOf(toFloat, parts[5])
                              && r.value.currency
                                 == if |parts| > 6 && Upper(parts[6]) in Currencies then Upper(parts[6]) else "USD")
  {
    if |parts| <= 5 then Some(Extras(None, "USD"))
    else if Upper(parts[5]) in Currencies then Some(Extras(None, Upper(parts[5])))
    else
      match PerformanceOf(toFloat, parts[5])
      case None => None
      case Some(p) =>
        Some(Extras(Some(p), if |parts| > 6 && Upper(parts[6]) in Currencies then Upper(parts[6]) else "USD"))
  }

  /** `parse_position`: None for fewer than five fields, an unknown
      direction, or a number `float` rejects. */
  function ParsePosition(toFloat: string -> Option<real>, posStr: string): (r: Option<Position>)
    ensures |Fields(posStr)| < 5 ==> r.None?
    ensures |Fields(posStr)| >= 5 ==>
              var parts := Fields(posStr);
              (r.Some? <==> Upper(parts[1]) in Directions && toFloat(parts[2]).Some? && toFloat(parts[3]).Some?
                            && toFloat(parts[4]).Some? && OptionalFields(toFloat, parts).Some?)
              && (r.Some? ==>
                    r.value == Position("", parts[0], Upper(parts[1]), toFloat(parts[2]).value,
                                        toFloat(parts[3]).value, toFloat(parts[4]).value,
                                        OptionalFields(toFloat, parts).value.performance,
                                        OptionalFields(toFloat, parts).value.currency))
    ensures r.Some? ==> r.value.direction in Directions && r.value.currency in Currencies && r.value.symbol == ""
  {
    var parts := Fields(posStr);
    if |parts| < 5 then None
    else
      var direction := Upper(parts[1]);
      if direction !in Directions then None
      else
        match (toFloat(parts[2]), toFloat(parts[3]), toFloat(parts[4]), OptionalFields(toFloat, parts))
        case (Some(value), Some(factor), Some(ko), Some(extras)) =>
          Some(Position("", parts[0], direction, value, factor, ko, extras.performance, extras.currency))
        case _ => None
  }

  /** Text whose '-'s each sit between two other characters. */
  predicate DashSeparated(s: string)
  {
    s != [] && s[0] != '-' && s[|s| - 1] != '-'
    && forall i :: 0 <= i < |s| - 1 ==> !(s[i] == '-' && s[i + 1] == '-')
  }

  lemma {:induction false} JoinDashSeparated(fields: seq<string>)
    requires |fields| >= 1
    requires forall k :: 0 <= k < |fields| ==> fields[k] != [] && '-' !in fields[k]
    ensures DashSeparated(Join(fields, "-"))
    decreases |fields|
  {
    if |fields| > 1 {
      var f := fields[0];
      var rest := Join(fields[1..], "-");
      JoinDashSeparated(fields[1..]);
      var s := Join(fields, "-");
      assert s == f + "-" + rest;
      forall i | 0 <= i < |s| - 1
        ensures !(s[i] == '-' && s[i + 1] == '-')
      {
        if i < |f| {
          assert s[i] == f[i];
        } else if i == |f| {
          assert s[i + 1] == rest[0];
        } else {
          assert s[i] == rest[i - |f| - 1] && s[i + 1] == rest[i - |f|];
        }
      }
      assert s[0] == f[0];
      assert s[|s| - 1] == rest[|rest| - 1];
    } else {
      assert Join(fields, "-") == fields[0];
    }
  }

  lemma DashSeparatedNoDoubleDash(s: string)
    requires DashSeparated(s)
    ensures !Contains(s, "--")
  {
    forall j: nat
      ensures !OccursAt(s, "--", j)
    {
      if j + 2 <= |s| {
        assert s[j..j + 2][0] == s[j] && s[j..j + 2][1] == s[j + 1];
      }
    }
  }

  lemma DashFreeNoDoubleDash(b: string)
    requires '-' !in b
    ensures !Contains(b, "--")
  {
    forall j: nat
      ensures !OccursAt(b, "--", j)
    {
      if j + 2 <= |b| {
        assert b[j..j + 2][0] == b[j];
      }
    }
  }

  /** One "--" between dash-separated text and a dash-free tail is the only
      place the rewrite applies. */
  lemma ReplaceDoubleDash(a: string, b: string)
    requires DashSeparated(a) && '-' !in b
    ensures Replace(a + "--" + b, "--", "-NEG") == a + "-NEG" + b
  {
    var s := a + "--" + b;
    FirstDoubleDash(a, b, s);
    assert s[..|a|] == a && s[|a| + 2..] == b;
    DashFreeNoDoubleDash(b);
    assert Split(b, "--") == [b];
    assert Split(s, "--") == [a] + Split(b, "--");
    var parts := [a, b];
    assert parts[1..] == [b];
    assert Join(parts, "-NEG") == a + "-NEG" + Join([b], "-NEG");
  }

  lemma FirstDoubleDash(a: string, b: string, s: string)
    requires DashSeparated(a) && s == a + "--" + b
    ensures Find(s, "--") == |a|
  {
    DashSeparatedNoDoubleDash(a);
    assert s[|a|..|a| + 2] == "--";
    forall j | 0 <= j < |a|
      ensures !OccursAt(s, "--", j)
    {
      if j + 2 <= |a| {
        assert !OccursAt(a, "--", j);
        assert s[j..j + 2] == a[j..j + 2];
      } else {
        assert s[j..j + 2][0] == a[|a| - 1];
      }
    }
    assert OccursAt(s, "--", |a|);
  }

  /** Fields free of '-' and non-empty come back from their join. */
  lemma PlainFields(fields: seq<string>)
    requires |fields| >= 1
    requires forall k :: 0 <= k < |fields| ==> fields[k] != [] && '-' !in fields[k]
    ensures Fields(Join(fields, "-")) == fields
  {
    JoinDashSeparated(fields);
    DashSeparatedNoDoubleDash(Join(fields, "-"));
    ReplaceAbsent(Join(fields, "-"), "--", "-NEG");
    SplitJoinChar(fields, '-');
  }

  /** A doubled dash before the last field makes it a "NEG" field. */
  lemma NegatedFields(fields: seq<string>, perf: string)
    requires |fields| >= 1
    requires forall k :: 0 <= k < |fields| ==> fields[k] != [] && '-' !in fields[k]
    requires '-' !in perf
    ensures Fields(Join(fields, "-") + "--" + perf) == fields + ["NEG" + perf]
  {
    var a := Join(fields, "-");
    JoinDashSeparated(fields);
    ReplaceDoubleDash(a, perf);
    var all := fields + ["NEG" + perf];
    NegatedJoin(fields, perf, a, all);
    SplitJoinChar(all, '-');
  }

  lemma NegatedJoin(fields: seq<string>, perf: string, a: string, all: seq<string>)
    requires |fields| >= 1 && a == Join(fields, "-") && all == fields + ["NEG" + perf]
    requires forall k :: 0 <= k < |fields| ==> '-' !in fields[k]
    requires '-' !in perf
    ensures Join(all, "-") == a + "-NEG" + perf
    ensures forall k :: 0 <= k < |all| ==> '-' !in all[k]
  {
    JoinSnoc(fields, "NEG" + perf, "-");
    assert a + "-NEG" + perf == a + "-" + ("NEG" + perf);
    assert '-' !in "NEG" + perf;
    forall k | 0 <= k < |all|
      ensures '-' !in all[k]
    {
      if k < |fields| { assert all[k] == fields[k]; }
    }
  }

  /** "NAME-DIR-VALUE-FACTOR-KO--P" is a position with performance −P in
      USD, e.g. "SILVER-LONG-956-4.16-78--15.5" has performance −15.5. */
  lemma NegativePerformance(toFloat: string -> Option<real>, fields: seq<string>, perf: string)
    requires |fields| == 5
    requires forall k :: 0 <= k < |fields| ==> fields[k] != [] && '-' !in fields[k]
    requires '-' !in perf
    requires Upper(fields[1]) in Directions
    requires toFloat(fields[2]).Some? && toFloat(fields[3]).Some? && toFloat(fields[4]).Some?
    requires toFloat(perf).Some?
    ensures ParsePosition(toFloat, Join(fields, "-") + "--" + perf)
            == Some(Position("", fields[0], Upper(fields[1]), toFloat(fields[2]).value, toFloat(fields[3]).value,
                             toFloat(fields[4]).value, Some(-toFloat(perf).value), "USD"))
  {
    var parts := fields + ["NEG" + perf];
    NegatedFields(fields, perf);
    var f := "NEG" + perf;
    assert parts[5] == f && parts[1] == fields[1] && parts[2] == fields[2] && parts[3] == fields[3]
           && parts[4] == fields[4] && parts[0] == fields[0];
    assert Upper(f)[0] == 'N';
    assert f[..3] == "NEG" && f[3..] == perf;
  }

  /** A sixth field naming a currency in any case is the currency, and the
      performance stays unset. */
  lemma CurrencyInSixthField(toFloat: string -> Option<real>, fields: seq<string>)
    requires |fields| == 6
    requires forall k :: 0 <= k < |fields| ==> fields[k] != [] && '-' !in fields[k]
    requires Upper(fields[1]) in Directions && Upper(fields[5]) in Currencies
    requires toFloat(fields[2]).Some? && toFloat(fields[3]).Some? && toFloat(fields[4]).Some?
    ensures var r := ParsePosition(toFloat, Join(fields, "-"));
            r.Some? && r.value.performance.None? && r.value.currency == Upper(fields[5])
  {
    PlainFields(fields);
  }

  // ---------------------------------------------------------------------------
  // knockout proximity and original investment

  /** `calculate_ko_proximity`: the distance to the knockout in percent of
      the price, 100 when there is no knockout or no price. */
  function KoProximity(price: real, ko: real, direction: string): (r: real)
    ensures ko <= 0.0 || price <= 0.0 || direction !in {"LONG", "SHORT"} ==> r == 100.0
    ensures ko > 0.0 && price > 0.0 && direction == "LONG" ==> r * price == (price - ko) * 100.0
    ensures ko > 0.0 && price > 0.0 && direction == "SHORT" ==> r * price == (ko - price) * 100.0
  {
    if ko <= 0.0 || price <= 0.0 then 100.0
    else if direction == "LONG" then (price - ko) / price * 100.0
    else if direction == "SHORT" then (ko - price) / price * 100.0
    else 100.0
  }

  /** A knocked-out position has no distance left: the proximity is at most
      zero exactly when the price has reached the knockout level; a LONG
      proximity stays below 100. */
  lemma KoProximitySign(price: real, ko: real, direction: string)
    requires ko > 0.0 && price > 0.0 && direction in {"LONG", "SHORT"}
    ensures direction == "LONG" ==> KoProximity(price, ko, direction) < 100.0
    ensures direction == "LONG" ==> (KoProximity(price, ko, direction) <= 0.0 <==> price <= ko)
    ensures direction == "SHORT" ==> (KoProximity(price, ko, direction) <= 0.0 <==> price >= ko)
  {
    var q := ko / price;
    assert ko == q * price;
    assert q > 0.0;
    if q >= 1.0 {
      MulNonneg(q - 1.0, price);
    } else {
      MulPos(1.0 - q, price);
    }
    if q <= 1.0 {
      MulNonneg(1.0 - q, price);
    } else {
      MulPos(q - 1.0, price);
    }
    DivOfProduct(price - ko, 1.0 - q, price);
    DivOfProduct(ko - price, q - 1.0, price);
  }

  lemma MulNonneg(a: real, b: real)
    requires a >= 0.0 && b >= 0.0
    ensures a * b >= 0.0
  {
  }

  lemma MulPos(a: real, b: real)
    requires a > 0.0 && b > 0.0
    ensures a * b > 0.0
  {
  }

  lemma DivOfProduct(x: real, y: real, p: real)
    requires p != 0.0 && x == y * p
    ensures x / p == y
  {
  }

  /** Price 82 against a LONG knockout at 80 is 100/41 ≈ 2.44 percent away. */
  lemma KoProximityExample()
    ensures KoProximity(82.0, 80.0, "LONG") == 100.0 / 41.0
  {
  }

  /** `calculate_original_investment`: the value before the performance,
      None without a performance or at a total loss. */
  function OriginalInvestment(currentValue: real, performance: Option<real>): (r: Option<real>)
    ensures r.None? <==> performance.None? || performance.value == -100.0
    ensures r.Some? ==> r.value * (1.0 + performance.value / 100.0) == currentValue
  {
    match performance
    case None => None
    case Some(p) => if p == -100.0 then None else Some(currentValue / (1.0 + p / 100.0))
  }

  /** Growing the original investment by the performance gives back the
      current value, and a gain means the original was smaller. */
  lemma OriginalInvestmentGrows(currentValue: real, p: real)
    requires p > -100.0 && currentValue > 0.0
    ensures var o := OriginalInvestment(currentValue, Some(p)).value;
            o > 0.0 && (p > 0.0 ==> o < currentValue) && (p < 0.0 ==> o > currentValue)
  {
    var g := 1.0 + p / 100.0;
    assert g > 0.0;
    assert OriginalInvestment(currentValue, Some(p)).value == currentValue / g;
    assert g > 1.0 <==> p > 0.0;
  }

  /** 956 at +49.40% was 956/1.494 ≈ 639.89. */
  lemma OriginalInvestmentExample()
    ensures OriginalInvestment(956.0, Some(49.40)) == Some(956.0 / 1.494)
  {
  }

  /** The knockout status band of a proximity. */
  datatype KoStatus = Critical | Warning | Caution | Safe

  function KoStatusOf(proximity: real): (s: KoStatus)
    ensures s == Critical <==> proximity < 5.0
    ensures s == Warning <==> 5.0 <= proximity < 10.0
    ensures s == Caution <==> 10.0 <= proximity < 15.0
    ensures s == Safe <==> proximity >= 15.0
  {
    if proximity < 5.0 then Critical
    else if proximity < 10.0 then Warning
    else if proximity < 15.0 then Caution
    else Safe
  }

  function StatusRank(s: KoStatus): nat
  {
    match s
    case Critical => 0
    case Warning => 1
    case Caution => 2
    case Safe => 3
  }

  /** A position further from its knockout never has a more alarming band. */
  lemma KoStatusMonotone(p: real, q: real)
    requires p <= q
    ensures StatusRank(KoStatusOf(p)) <= StatusRank(KoStatusOf(q))
  {
  }

  // ---------------------------------------------------------------------------
  // run_portfolio_analysis: the price each position is measured against

  /** The outcome of one analysis: the trade decision dict, or a failure. */
  datatype AnalysisOutcome = Succeeded(trade: map<string, Json>) | Failed

  /** The price a position is measured against: the decision's EUR price for
      EUR positions, its USD price otherwise (default 0), and 0 when the
      analysis failed or is missing. */
  function SelectedPrice(pos: Position, results: map<string, AnalysisOutcome>): (p: Json)
    ensures (pos.symbol !in results || results[pos.symbol].Failed?) ==> p == JNum(0.0)
    ensures pos.symbol in results && results[pos.symbol].Succeeded? ==>
              p == Get(results[pos.symbol].trade, if pos.currency == "EUR" then "price_eur" else "price_usd",
                       JNum(0.0))
  {
    if pos.symbol in results && results[pos.symbol].Succeeded? then
      Get(results[pos.symbol].trade, if pos.currency == "EUR" then "price_eur" else "price_usd", JNum(0.0))
    else JNum(0.0)
  }

  /** `calculate_ko_proximity` on the selected price: comparing a price that
      is not a number with 0 raises TypeError, unless the knockout level
      already short-circuits. */
  function ProximityOf(price: Json, ko: real, direction: string): (r: Result<real, PyError>)
    ensures ko <= 0.0 ==> r == Ok(100.0)
    ensures ko > 0.0 ==> (r.Err? <==> AsNumber(price).None?)
    ensures r.Err? ==> r.error == TypeError
    ensures r.Ok? && ko > 0.0 ==> r.value == KoProximity(AsNumber(price).value, ko, direction)
  {
    if ko <= 0.0 then Ok(100.0)
    else
      match AsNumber(price)
      case None => Err(TypeError)
      case Some(p) => Ok(KoProximity(p, ko, direction))
  }

  /** One line of `positions_with_analysis`. */
  datatype Report = Report(position: Position, analysis: Option<map<string, Json>>, currentPrice: Json,
                           koProximity: real)

  function ReportOf(pos: Position, results: map<string, AnalysisOutcome>): Result<Report, PyError>
  {
    var price := SelectedPrice(pos, results);
    var analysis := if pos.symbol in results && results[pos.symbol].Succeeded?
                    then Some(results[pos.symbol].trade) else None;
    match ProximityOf(price, pos.knockoutLevel, pos.direction)
    case Err(e) => Err(e)
    case Ok(k) => Ok(Report(pos, analysis, price, k))
  }

  /** A failed or missing analysis leaves the position at price 0, hence
      proximity 100 and the safe band. */
  lemma FailedAnalysisIsSafe(pos: Position, results: map<string, AnalysisOutcome>)
    requires pos.symbol !in results || results[pos.symbol].Failed?
    ensures ReportOf(pos, results).Ok?
    ensures ReportOf(pos, results).value.koProximity == 100.0
    ensures KoStatusOf(ReportOf(pos, results).value.koProximity) == Safe
  {
  }

  /** The loop building `positions_with_analysis`, one report per position in
      order; the first price that cannot be compared raises. */
  method BuildReports(positions: seq<Position>, results: map<string, AnalysisOutcome>)
    returns (r: Result<seq<Report>, PyError>)
    ensures r.Ok? <==> forall i :: 0 <= i < |positions| ==> ReportOf(positions[i], results).Ok?
    ensures r.Err? ==> r.error == TypeError
    ensures r.Ok? ==> |r.value| == |positions|
                      && forall i :: 0 <= i < |positions| ==> r.value[i] == ReportOf(positions[i], results).value
  {
    var reports: seq<Report> := [];
    for i := 0 to |positions|
      invariant |reports| == i
      invariant forall j :: 0 <= j < i ==>
                  ReportOf(positions[j], results).Ok? && reports[j] == ReportOf(positions[j], results).value
    {
      var report := ReportOf(positions[i], results);
      if report.Err? {
        return Err(report.error);
      }
      reports := reports + [report.value];
    }
    r := Ok(reports);
  }

  // ---------------------------------------------------------------------------
  // main: argument handling

  /** What `main` goes on to do. */
  datatype Command =
    | MissingIds
    | Show
    | Clear
    | Remove(symbol: string)
    | Update
    | NoValidPositions
    | Analyse(positions: seq<Position>, saveToDb: bool)

  /** The index of the first `x` in `xs`, or |xs|. */
  function IndexOf(xs: seq<string>, x: string): (i: nat)
    ensures i <= |xs|
    ensures i < |xs| ==> xs[i] == x
    ensures forall j :: 0 <= j < i ==> xs[j] != x
  {
    if xs == [] then 0 else if xs[0] == x then 0 else 1 + IndexOf(xs[1..], x)
  }

  /** `list.remove(x)` for an `x` that is present: the first copy goes. */
  function RemoveFirst(xs: seq<string>, x: string): (r: seq<string>)
    requires x in xs
    ensures |r| == |xs| - 1
    ensures multiset(r) == multiset(xs) - multiset{x}
  {
    var i := IndexOf(xs, x);
    assert xs == xs[..i] + [xs[i]] + xs[i + 1..];
    xs[..i] + xs[i + 1..]
  }

  /** The positions among `args` that parse, in order. */
  function ValidPositions(toFloat: string -> Option<real>, args: seq<string>): (ps: seq<Position>)
    ensures |ps| <= |args|
    ensures forall p :: p in ps ==> p.direction in Directions && p.currency in Currencies
  {
    if args == [] then []
    else
      var rest := ValidPositions(toFloat, args[1..]);
      match ParsePosition(toFloat, args[0])
      case Some(p) => [p] + rest
      case None => rest
  }

  function Resolved(resolve: string -> string, ps: seq<Position>): (rs: seq<Position>)
    ensures |rs| == |ps|
    ensures forall i :: 0 <= i < |ps| ==> rs[i] == ps[i].(symbol := resolve(ps[i].displayName))
  {
    seq(|ps|, i requires 0 <= i < |ps| => ps[i].(symbol := resolve(ps[i].displayName)))
  }

  /** The loop over the arguments: every one that parses, in order. */
  method CollectPositions(toFloat: string -> Option<real>, args: seq<string>) returns (positions: seq<Position>)
    ensures positions == ValidPositions(toFloat, args)
  {
    positions := [];
    var i := |args|;
    while i > 0
      invariant 0 <= i <= |args|
      invariant positions == ValidPositions(toFloat, args[i..])
    {
      i := i - 1;
      assert args[i..][1..] == args[i + 1..];
      var pos := ParsePosition(toFloat, args[i]);
      if pos.Some? {
        positions := [pos.value] + positions;
      }
    }
    assert args[0..] == args;
  }

  /** Each position's symbol is resolved from its display name. */
  method ResolveSymbols(resolve: string -> string, ps: seq<Position>) returns (positions: seq<Position>)
    ensures positions == Resolved(resolve, ps)
  {
    positions := ps;
    var j := 0;
    while j < |positions|
      invariant 0 <= j <= |positions| == |ps|
      invariant forall k :: 0 <= k < j ==> positions[k] == Resolved(resolve, ps)[k]
      invariant forall k :: j <= k < |positions| ==> positions[k] == ps[k]
    {
      positions := positions[j := positions[j].(symbol := resolve(positions[j].displayName))];
      j := j + 1;
    }
  }

  /** The command the words of `PORTFOLIO_ARGS` select. */
  function CommandOf(toFloat: string -> Option<real>, resolve: string -> string, words: seq<string>): Command
  {
    var save := "--nosave" !in words;
    var args := if save then words else RemoveFirst(words, "--nosave");
    Subcommand(toFloat, resolve, args, save)
  }

  /** The subcommand once "--nosave" is taken out of the arguments. */
  function Subcommand(toFloat: string -> Option<real>, resolve: string -> string, args: seq<string>, save: bool)
    : Command
  {
    if args == [] || Lower(args[0]) == "show" then Show
    else if Lower(args[0]) == "clear" then Clear
    else if Lower(args[0]) == "remove" && |args| > 1 then Remove(args[1])
    else if Lower(args[0]) == "update" then Update
    else
      var positions := ValidPositions(toFloat, args);
      if positions == [] then NoValidPositions else Analyse(Resolved(resolve, positions), save)
  }

  /** The language code: lower-cased, "de" unless it is "de" or "en". */
  function LangOf(langEnv: string): (lang: string)
    ensures lang in {"de", "en"}
    ensures Lower(langEnv) in {"de", "en"} ==> lang == Lower(langEnv)
    ensures Lower(langEnv) !in {"de", "en"} ==> lang == "de"
  {
    if Lower(langEnv) in {"de", "en"} then Lower(langEnv) else "de"
  }

  /** `main` up to the subcommand it dispatches to. */
  method PortfolioMain(toFloat: string -> Option<real>, resolve: string -> string, portfolioArgs: string,
                       userId: string, chatId: string, langEnv: string)
    returns (command: Command, lang: string)
    ensures lang == LangOf(langEnv)
    ensures command == if userId == "" || chatId == "" then MissingIds
                       else CommandOf(toFloat, resolve, Words(portfolioArgs))
  {
    lang := Lower(langEnv);
    if lang !in {"de", "en"} {
      lang := "de";
    }
    if userId == "" || chatId == "" {
      return MissingIds, lang;
    }
    var args := Words(portfolioArgs);
    var saveToDb := true;
    if "--nosave" in args {
      saveToDb := false;
      args := RemoveFirst(args, "--nosave");
    }
    command := Dispatch(toFloat, resolve, args, saveToDb);
  }

  /** The subcommand branches of `main`. */
  method Dispatch(toFloat: string -> Option<real>, resolve: string -> string, args: seq<string>, saveToDb: bool)
    returns (command: Command)
    ensures command == Subcommand(toFloat, resolve, args, saveToDb)
  {
    if args == [] || Lower(args[0]) == "show" {
      return Show;
    }
    if Lower(args[0]) == "clear" {
      return Clear;
    }
    if Lower(args[0]) == "remove" && |args| > 1 {
      return Remove(args[1]);
    }
    if Lower(args[0]) == "update" {
      return Update;
    }
    var positions := CollectPositions(toFloat, args);
    if positions == [] {
      return NoValidPositions;
    }
    positions := ResolveSymbols(resolve, positions);
    return Analyse(positions, saveToDb);
  }

  /** Every position handed to the analysis parsed, is resolved, and the
      flag only decides whether it is saved. */
  lemma AnalysedPositionsValid(toFloat: string -> Option<real>, resolve: string -> string, words: seq<string>)
    requires CommandOf(toFloat, resolve, words).Analyse?
    ensures var c := CommandOf(toFloat, resolve, words);
            c.positions != [] && c.saveToDb == ("--nosave" !in words)
            && forall p :: p in c.positions ==>
                 p.direction in Directions && p.currency in Currencies && p.symbol == resolve(p.displayName)
  {
    var c := CommandOf(toFloat, resolve, words);
    var save := "--nosave" !in words;
    var args := if save then words else RemoveFirst(words, "--nosave");
    var ps := ValidPositions(toFloat, args);
    forall p | p in c.positions
      ensures p.direction in Directions && p.currency in Currencies && p.symbol == resolve(p.displayName)
    {
      var i :| 0 <= i < |c.positions| && c.positions[i] == p;
      assert ps[i] in ps;
    }
  }
}
