/** `src/bot/commands/long_short.py`: the `/long` and `/short` knockout
    certificate analysis. The stock data drawn from a price history, the
    knockout level, its distance, the recommended leverage, the price
    targets and the budget sizing, and the key points taken from the
    analysis text. The reply is a record of the values it shows; emoji,
    wording and number formatting are not modelled. */
module LongShort {
  import opened Wrappers
  import opened JsonValue
  import opened Text
  import opened Dicts
  import UserStates

  // ---------------------------------------------------------------------------
  // Stock data (`_get_stock_data`)

  /** One row of the daily history. */
  datatype Bar = Bar(high: real, low: real, close: real)

  /** A plausible daily bar: positive, with the close inside the day's range. */
  predicate WellFormedBar(b: Bar)
  {
    0.0 < b.low <= b.close <= b.high
  }

  predicate WellFormedHistory(bars: seq<Bar>)
  {
    forall i :: 0 <= i < |bars| ==> WellFormedBar(bars[i])
  }

  /** `series.tail(n)`. */
  function Last<T>(xs: seq<T>, n: nat): (r: seq<T>)
    ensures |r| == if n <= |xs| then n else |xs|
    ensures r == xs[|xs| - |r|..]
  {
    if n <= |xs| then xs[|xs| - n..] else xs
  }

  /** `hist["Low"].min()` over a non-empty history. */
  function MinLow(bars: seq<Bar>): (m: real)
    requires bars != []
    ensures forall i :: 0 <= i < |bars| ==> m <= bars[i].low
    ensures exists i :: 0 <= i < |bars| && m == bars[i].low
  {
    if |bars| == 1 then bars[0].low
    else
      var rest := MinLow(bars[1..]);
      if bars[0].low <= rest then bars[0].low else rest
  }

  /** `hist["High"].max()` over a non-empty history. */
  function MaxHigh(bars: seq<Bar>): (m: real)
    requires bars != []
    ensures forall i :: 0 <= i < |bars| ==> bars[i].high <= m
    ensures exists i :: 0 <= i < |bars| && m == bars[i].high
  {
    if |bars| == 1 then bars[0].high
    else
      var rest := MaxHigh(bars[1..]);
      if rest <= bars[0].high then bars[0].high else rest
  }

  function Range(b: Bar): real
  {
    b.high - b.low
  }

  /** `(hist["High"] - hist["Low"]).sum()`. */
  function SumRanges(bars: seq<Bar>): real
  {
    if bars == [] then 0.0 else Range(bars[0]) + SumRanges(bars[1..])
  }

  /** With every daily range between `lo` and `hi`, their sum lies between
      `n * lo` and `n * hi`. */
  lemma {:induction false} RangeSumBetween(bars: seq<Bar>, lo: real, hi: real)
    requires forall i :: 0 <= i < |bars| ==> lo <= Range(bars[i]) <= hi
    ensures (|bars| as real) * lo <= SumRanges(bars) <= (|bars| as real) * hi
  {
    if bars != [] {
      RangeSumBetween(bars[1..], lo, hi);
      assert Range(bars[0]) == Range(bars[..][0]);
      assert (|bars| as real) * lo == lo + (|bars[1..]| as real) * lo;
      assert (|bars| as real) * hi == hi + (|bars[1..]| as real) * hi;
    }
  }

  /** Window lengths of the two rolling statistics. */
  const SupportWindow: nat := 20
  const AtrWindow: nat := 14

  /** The values `_format_knockout_result` reads from the stock data. The
      52-week low and high are computed by the source but never shown. */
  datatype StockData = StockData(
    price: real,
    recentLow: real,
    recentHigh: real,
    atr: real,
    atrPct: real,
    name: string,
    currency: string)

  /** Average true range as the source computes it: the mean high-low range
      of the last 14 days. */
  function Atr(bars: seq<Bar>): real
    requires bars != []
  {
    var w := Last(bars, AtrWindow);
    SumRanges(w) / (|w| as real)
  }

  /** The mean of a window of ranges lies within the ranges it averages. */
  lemma AtrBetween(bars: seq<Bar>, lo: real, hi: real)
    requires bars != []
    requires forall i :: 0 <= i < |bars| ==> lo <= Range(bars[i]) <= hi
    ensures lo <= Atr(bars) <= hi
  {
    var w := Last(bars, AtrWindow);
    forall i | 0 <= i < |w|
      ensures lo <= Range(w[i]) <= hi
    {
      var j := |bars| - |w| + i;
      assert w[i] == bars[j];
    }
    RangeSumBetween(w, lo, hi);
    MeanBetween(SumRanges(w), |w| as real, lo, hi);
  }

  /** A sum of `n` values between `lo` and `hi` has its mean there too. */
  lemma MeanBetween(sum: real, n: real, lo: real, hi: real)
    requires 0.0 < n && n * lo <= sum <= n * hi
    ensures lo <= sum / n <= hi
  {
    DivLe(lo, sum, n);
    DivGe(hi, sum, n);
  }

  /** The stock data drawn from a 3-month history. An empty history raises
      ValueError. The percentage ATR divides by the last close, so a zero
      close is a division error; `name` and `currency` fall back to the
      symbol and "USD" when the ticker info lacks them. */
  function StockDataOf(symbol: string, bars: seq<Bar>, shortName: Option<string>,
                       currency: Option<string>): (r: Result<StockData, PyError>)
    ensures bars == [] ==> r == Err(ValueError)
    ensures bars != [] ==> (r.Err? <==> bars[|bars| - 1].close == 0.0)
    ensures r.Ok? ==> r.value.price == bars[|bars| - 1].close
    ensures r.Ok? ==> r.value.name == shortName.GetOr(symbol)
    ensures r.Ok? ==> r.value.currency == currency.GetOr("USD")
  {
    if bars == [] then Err(ValueError)
    else
      var price := bars[|bars| - 1].close;
      if price == 0.0 then Err(ZeroDivisionError)
      else
        var recent := Last(bars, SupportWindow);
        var atr := Atr(bars);
        Ok(StockData(price, MinLow(recent), MaxHigh(recent), atr, atr / price * 100.0,
                     shortName.GetOr(symbol), currency.GetOr("USD")))
  }

  /** On a well-formed history the last close lies between the 20-day
      support and resistance, the support is positive, and the ATR (and its
      percentage) is non-negative. */
  lemma StockDataBounds(symbol: string, bars: seq<Bar>, shortName: Option<string>,
                        currency: Option<string>)
    requires bars != [] && WellFormedHistory(bars)
    ensures StockDataOf(symbol, bars, shortName, currency).Ok?
    ensures var s := StockDataOf(symbol, bars, shortName, currency).value;
      0.0 < s.recentLow <= s.price <= s.recentHigh && 0.0 <= s.atr && 0.0 <= s.atrPct
  {
    var price := bars[|bars| - 1].close;
    var recent := Last(bars, SupportWindow);
    var atr := Atr(bars);
    assert 0.0 < MinLow(recent) <= price <= MaxHigh(recent) by {
      SupportAroundClose(bars);
    }
    assert 0.0 <= atr && 0.0 <= atr / price * 100.0 by {
      AtrNonNegative(bars);
      PercentNonNegative(atr, price);
    }
    StockDataValue(symbol, bars, shortName, currency);
  }

  /** The fields of the stock data of a history whose last close is non-zero. */
  lemma StockDataValue(symbol: string, bars: seq<Bar>, shortName: Option<string>,
                       currency: Option<string>)
    requires bars != [] && bars[|bars| - 1].close != 0.0
    ensures var price := bars[|bars| - 1].close;
      var recent := Last(bars, SupportWindow);
      StockDataOf(symbol, bars, shortName, currency)
        == Ok(StockData(price, MinLow(recent), MaxHigh(recent), Atr(bars), Atr(bars) / price * 100.0,
                        shortName.GetOr(symbol), currency.GetOr("USD")))
  {
  }

  lemma PercentNonNegative(x: real, price: real)
    requires 0.0 <= x && 0.0 < price
    ensures 0.0 <= x / price * 100.0
  {
    DivLe(0.0, x, price);
    MulMono(0.0, x / price, 100.0);
  }

  /** The last close lies between the lowest low and the highest high of the
      support window, and the lowest low is positive. */
  lemma SupportAroundClose(bars: seq<Bar>)
    requires bars != [] && WellFormedHistory(bars)
    ensures var recent := Last(bars, SupportWindow);
      0.0 < MinLow(recent) <= bars[|bars| - 1].close <= MaxHigh(recent)
  {
    var recent := Last(bars, SupportWindow);
    var last := bars[|bars| - 1];
    assert recent[|recent| - 1] == last;
    var j :| 0 <= j < |recent| && MinLow(recent) == recent[j].low;
    assert recent[j] == bars[|bars| - |recent| + j];
    assert WellFormedBar(last);
  }

  lemma AtrNonNegative(bars: seq<Bar>)
    requires bars != [] && WellFormedHistory(bars)
    ensures 0.0 <= Atr(bars)
  {
    var hi := MaxHigh(bars);
    forall i | 0 <= i < |bars|
      ensures 0.0 <= Range(bars[i]) <= hi
    {
      assert WellFormedBar(bars[i]);
    }
    AtrBetween(bars, 0.0, hi);
  }

  // ---------------------------------------------------------------------------
  // Knockout level, distance, leverage and targets

  datatype Direction = Long | Short

  /** Any direction other than "long" is treated as short. */
  function DirectionOf(direction: string): (d: Direction)
    ensures d == Long <==> direction == "long"
  {
    if direction == "long" then Long else Short
  }

  /** The knockout barrier: the buffer below the support for a long, above
      the resistance for a short. */
  function KoLevel(d: Direction, s: StockData, bufferPct: int): real
  {
    match d
    case Long => s.recentLow * (1.0 - bufferPct as real / 100.0)
    case Short => s.recentHigh * (1.0 + bufferPct as real / 100.0)
  }

  /** Distance from the price to the barrier, in percent of the price, on
      the side the certificate loses. */
  function DistanceToKo(d: Direction, price: real, ko: real): (r: Result<real, PyError>)
    ensures r.Err? <==> price == 0.0
  {
    if price == 0.0 then Err(ZeroDivisionError)
    else
      match d
      case Long => Ok((price - ko) / price * 100.0)
      case Short => Ok((ko - price) / price * 100.0)
  }

  function Min(a: int, b: int): int { if a <= b then a else b }
  function Max(a: int, b: int): int { if a >= b then a else b }

  /** `min(max_leverage, max(2, int(100 / distance)))`. The distance is a
      numpy float, so a zero distance makes `100 / distance` infinite and
      `int` of it raises OverflowError. */
  function RecommendedLeverage(maxLeverage: int, distance: real): (r: Result<int, PyError>)
    ensures r.Err? <==> distance == 0.0
    ensures r.Err? ==> r.error == OverflowError
    ensures r.Ok? ==> r.value <= maxLeverage
    ensures r.Ok? && 2 <= maxLeverage ==> 2 <= r.value
    ensures r.Ok? ==> r.value == maxLeverage || r.value == 2 || r.value == TruncInt(100.0 / distance)
  {
    if distance == 0.0 then Err(OverflowError)
    else Ok(Min(maxLeverage, Max(2, TruncInt(100.0 / distance))))
  }

  /** For a positive distance the cap is reached exactly when the barrier is
      within `100 / max_leverage` percent, and a distance of 50 % or more
      gets the floor of 2. */
  lemma LeverageCap(maxLeverage: int, distance: real)
    requires 2 <= maxLeverage && 0.0 < distance
    ensures RecommendedLeverage(maxLeverage, distance).value == maxLeverage
        <==> (maxLeverage == 2 || (maxLeverage as real) * distance <= 100.0)
    ensures 50.0 <= distance ==> RecommendedLeverage(maxLeverage, distance).value == 2
  {
    var x := 100.0 / distance;
    DivLe(maxLeverage as real, 100.0, distance);
    DivGe(2.0, 100.0, distance);
    DivLe(0.0, 100.0, distance);
    var t := TruncInt(x);
    assert t >= maxLeverage <==> x >= maxLeverage as real;
    assert t <= 2 <== x <= 2.0;
  }

  /** A barrier further away never gets a larger leverage. */
  lemma LeverageMonotone(maxLeverage: int, d1: real, d2: real)
    requires 0.0 < d1 <= d2
    ensures RecommendedLeverage(maxLeverage, d2).value <= RecommendedLeverage(maxLeverage, d1).value
  {
    var x1 := 100.0 / d1;
    DivLe(0.0, 100.0, d1);
    assert x1 * d1 == 100.0;
    MulMono(d1, d2, x1);
    DivGe(x1, 100.0, d2);
  }

  /** The knockout recommendation and the two price targets. */
  datatype Knockout = Knockout(
    direction: Direction,
    koLevel: real,
    distance: real,
    leverage: int,
    maxLeverage: int,
    target1: real,
    target2: real)

  /** The price targets: 5 % and 10 % in the certificate's favour. */
  function Targets(d: Direction, price: real): (real, real)
  {
    match d
    case Long => (price * 1.05, price * 1.10)
    case Short => (price * 0.95, price * 0.90)
  }

  /** The knockout figures `_format_knockout_result` computes from the
      profile's leverage cap and knockout buffer. */
  function KnockoutOf(direction: string, s: StockData, settings: UserStates.RiskSettings)
    : (r: Result<Knockout, PyError>)
    ensures r.Ok? ==> r.value.direction == DirectionOf(direction)
    ensures r.Ok? ==> r.value.maxLeverage == settings.maxLeverage
    ensures r.Ok? ==> r.value.koLevel == KoLevel(DirectionOf(direction), s, settings.knockoutBufferPct)
    ensures r.Ok? ==> r.value.leverage <= settings.maxLeverage
    ensures r.Err? <==> (s.price == 0.0 || DistanceToKo(DirectionOf(direction), s.price,
                                   KoLevel(DirectionOf(direction), s, settings.knockoutBufferPct)) == Ok(0.0))
  {
    var d := DirectionOf(direction);
    var ko := KoLevel(d, s, settings.knockoutBufferPct);
    match DistanceToKo(d, s.price, ko)
    case Err(e) => Err(e)
    case Ok(distance) =>
      var (t1, t2) := Targets(d, s.price);
      match RecommendedLeverage(settings.maxLeverage, distance)
      case Err(e) => Err(e)
      case Ok(lev) => Ok(Knockout(d, ko, distance, lev, settings.maxLeverage, t1, t2))
  }

  /** What the figures of a knockout mean: the distance is the gap between
      price and barrier (in the certificate's direction) as a percentage of
      the price, the leverage is the one recommended for that distance, and
      the targets lie 5 % and 10 % from the price in the certificate's
      favour. */
  lemma KnockoutFigures(direction: string, s: StockData, settings: UserStates.RiskSettings)
    requires KnockoutOf(direction, s, settings).Ok?
    ensures var k := KnockoutOf(direction, s, settings).value;
      && k.distance * s.price == 100.0 * (if k.direction == Long then s.price - k.koLevel else k.koLevel - s.price)
      && Ok(k.leverage) == RecommendedLeverage(settings.maxLeverage, k.distance)
      && (k.target1 - s.price) * 100.0 == s.price * (if k.direction == Long then 5.0 else -5.0)
      && (k.target2 - s.price) * 100.0 == s.price * (if k.direction == Long then 10.0 else -10.0)
  {
    var k := KnockoutOf(direction, s, settings).value;
    var p := s.price;
    var gap := if k.direction == Long then p - k.koLevel else k.koLevel - p;
    assert k.distance == gap / p * 100.0;
    var q := gap / p;
    assert q * p == gap;
  }

  /** The targets move the price by +5 % and +10 % for a long, by -5 % and
      -10 % for a short, as the percentages next to them show. */
  lemma TargetMoves(d: Direction, price: real)
    requires price != 0.0
    ensures var (t1, t2) := Targets(d, price);
      (t1 / price - 1.0) * 100.0 == (if d == Long then 5.0 else -5.0)
      && (t2 / price - 1.0) * 100.0 == (if d == Long then 10.0 else -10.0)
  {
    var (f1, f2) := if d == Long then (1.05, 1.10) else (0.95, 0.90);
    DivOfProduct(price * f1, f1, price);
    DivOfProduct(price * f2, f2, price);
  }

  /** A long barrier lies the buffer below the support; when the price is at
      or above the support the barrier is at least `buffer` percent away, so
      no division fails and the leverage respects the profile's bounds. */
  lemma LongBarrier(s: StockData, settings: UserStates.RiskSettings)
    requires 0.0 < s.recentLow <= s.price
    requires 0 < settings.knockoutBufferPct < 100 && 2 <= settings.maxLeverage
    ensures KnockoutOf("long", s, settings).Ok?
    ensures var k := KnockoutOf("long", s, settings).value;
      k.koLevel < s.recentLow && settings.knockoutBufferPct as real <= k.distance
      && 2 <= k.leverage <= settings.maxLeverage
  {
    var b := settings.knockoutBufferPct as real / 100.0;
    var p := s.price;
    var ko := s.recentLow * (1.0 - b);
    assert 0.0 < b < 1.0;
    MulMono(s.recentLow, p, 1.0 - b);
    MulStrict(1.0 - b, 1.0, s.recentLow);
    assert p - ko >= b * p;
    DivLe(b, p - ko, p);
    assert (p - ko) / p * 100.0 >= b * 100.0;
  }

  /** A short barrier lies the buffer above the resistance; when the price is
      at or below the resistance the barrier is at least `buffer` percent
      away. */
  lemma ShortBarrier(direction: string, s: StockData, settings: UserStates.RiskSettings)
    requires direction != "long"
    requires 0.0 < s.price <= s.recentHigh
    requires 0 < settings.knockoutBufferPct && 2 <= settings.maxLeverage
    ensures KnockoutOf(direction, s, settings).Ok?
    ensures var k := KnockoutOf(direction, s, settings).value;
      k.koLevel > s.recentHigh && settings.knockoutBufferPct as real <= k.distance
      && 2 <= k.leverage <= settings.maxLeverage
  {
    var b := settings.knockoutBufferPct as real / 100.0;
    var ko := s.recentHigh * (1.0 + b);
    assert ko >= s.price * (1.0 + b);
    var p := s.price;
    assert (ko - p) / p * 100.0 >= b * 100.0 by {
      assert ko - p >= p * b;
      assert (ko - p) / p >= b;
    }
  }

  /** For every user and either direction, the stock data of a well-formed
      history yields a knockout at least the profile's buffer away, with a
      leverage between 2 and the profile's cap. */
  lemma KnockoutForUser(direction: string, symbol: string, bars: seq<Bar>,
                        shortName: Option<string>, currency: Option<string>,
                        user: UserStates.UserState)
    requires bars != [] && WellFormedHistory(bars)
    ensures StockDataOf(symbol, bars, shortName, currency).Ok?
    ensures var settings := UserStates.RiskSettingsOf(user);
      var k := KnockoutOf(direction, StockDataOf(symbol, bars, shortName, currency).value, settings);
      k.Ok? && settings.knockoutBufferPct as real <= k.value.distance
      && 2 <= k.value.leverage <= settings.maxLeverage
  {
    StockDataBounds(symbol, bars, shortName, currency);
    var s := StockDataOf(symbol, bars, shortName, currency).value;
    var settings := UserStates.RiskSettingsOf(user);
    ProfileBounds(user);
    if direction == "long" {
      LongBarrier(s, settings);
    } else {
      ShortBarrier(direction, s, settings);
    }
  }

  /** Every profile, the fallback included, has a buffer strictly between 0
      and 100 percent and a leverage cap of at least 2. */
  lemma ProfileBounds(user: UserStates.UserState)
    ensures var settings := UserStates.RiskSettingsOf(user);
      0 < settings.knockoutBufferPct < 100 && 2 <= settings.maxLeverage
  {
  }

  // ---------------------------------------------------------------------------
  // Position sizing

  /** The position block: 30 % of the budget is staked, all of it is lost at
      the barrier, and a 5 % move gains the stake times the leverage times
      0.05. */
  datatype Sizing = Sizing(budget: real, position: real, maxLoss: real, potentialGain: real)

  /** Shown only when a budget is given and non-zero. */
  function SizingOf(budget: Option<real>, leverage: int): (r: Option<Sizing>)
    ensures r.Some? <==> budget.Some? && budget.value != 0.0
    ensures r.Some? ==> r.value.budget == budget.value
  {
    match budget
    case None => None
    case Some(b) =>
      if b == 0.0 then None
      else
        var position := b * 0.3;
        Some(Sizing(b, position, position, position * (leverage as real) * 0.05))
  }

  /** The stake and the loss at the barrier are equal and below a positive
      budget; at the highest leverage any profile allows (20) the gain of a
      5 % move never exceeds the stake. */
  lemma SizingBounds(budget: real, leverage: int)
    requires 0.0 < budget && 0 <= leverage <= 20
    ensures var z := SizingOf(Some(budget), leverage).value;
      0.0 < z.position == z.maxLoss < budget && 0.0 <= z.potentialGain <= z.maxLoss
      && z.potentialGain == z.maxLoss * (leverage as real) / 20.0
  {
  }

  // ---------------------------------------------------------------------------
  // Key points of the analysis text (`_extract_key_points`)

  const NoAnalysis: string := "Keine detaillierte Analyse verfügbar."
  const KeyPointsLength: nat := 400
  const KeyPointSentences: nat := 4

  /** The loop over the first sentences: each sentence is kept, stripped and
      followed by ". ", while the text gathered so far plus the raw sentence
      stays under `maxLength`; the first one that does not fit ends the loop. */
  function Gather(sentences: seq<string>, acc: string, maxLength: nat): string
    decreases |sentences|
  {
    if sentences == [] then acc
    else if |acc| + |sentences[0]| < maxLength then
      Gather(sentences[1..], acc + Strip(sentences[0]) + ". ", maxLength)
    else acc
  }

  /** How many sentences `Gather` keeps. */
  function Kept(sentences: seq<string>, acc: string, maxLength: nat): (k: nat)
    ensures k <= |sentences|
    decreases |sentences|
  {
    if sentences == [] then 0
    else if |acc| + |sentences[0]| < maxLength then
      1 + Kept(sentences[1..], acc + Strip(sentences[0]) + ". ", maxLength)
    else 0
  }

  /** Sentences written back, each stripped and followed by ". ". */
  function Rendered(sentences: seq<string>): string
  {
    if sentences == [] then "" else Strip(sentences[0]) + ". " + Rendered(sentences[1..])
  }

  /** `Gather` appends the first `Kept` sentences and stops at the first one
      that does not fit; started from a text of at most `maxLength + 1`
      characters it never grows beyond that. */
  lemma {:induction false} GatherKeepsPrefix(sentences: seq<string>, acc: string, maxLength: nat)
    ensures Gather(sentences, acc, maxLength)
         == acc + Rendered(sentences[..Kept(sentences, acc, maxLength)])
    ensures Kept(sentences, acc, maxLength) < |sentences| ==>
      |Gather(sentences, acc, maxLength)| + |sentences[Kept(sentences, acc, maxLength)]| >= maxLength
    ensures |acc| <= maxLength + 1 ==> |Gather(sentences, acc, maxLength)| <= maxLength + 1
  {
    GatherRendered(sentences, acc, maxLength);
    GatherStops(sentences, acc, maxLength);
    GatherBounded(sentences, acc, maxLength);
  }

  lemma {:induction false} GatherRendered(sentences: seq<string>, acc: string, maxLength: nat)
    ensures Gather(sentences, acc, maxLength)
         == acc + Rendered(sentences[..Kept(sentences, acc, maxLength)])
    decreases |sentences|
  {
    if sentences != [] && |acc| + |sentences[0]| < maxLength {
      var rest := sentences[1..];
      var next := acc + Strip(sentences[0]) + ". ";
      GatherRendered(rest, next, maxLength);
      var k := Kept(rest, next, maxLength);
      RenderedCons(sentences, k);
      Assoc4(acc, Strip(sentences[0]), ". ", Rendered(rest[..k]));
    } else if sentences != [] {
      assert sentences[..0] == [];
    }
  }

  lemma Assoc4(a: string, b: string, c: string, d: string)
    ensures a + b + c + d == a + (b + c + d)
  {
  }

  lemma RenderedCons(sentences: seq<string>, k: nat)
    requires k < |sentences|
    ensures Rendered(sentences[..k + 1]) == Strip(sentences[0]) + ". " + Rendered(sentences[1..][..k])
  {
    assert sentences[..k + 1][0] == sentences[0];
    assert sentences[..k + 1][1..] == sentences[1..][..k];
  }

  lemma {:induction false} GatherStops(sentences: seq<string>, acc: string, maxLength: nat)
    ensures Kept(sentences, acc, maxLength) < |sentences| ==>
      |Gather(sentences, acc, maxLength)| + |sentences[Kept(sentences, acc, maxLength)]| >= maxLength
    decreases |sentences|
  {
    if sentences != [] && |acc| + |sentences[0]| < maxLength {
      var rest := sentences[1..];
      var next := acc + Strip(sentences[0]) + ". ";
      GatherStops(rest, next, maxLength);
      var k := Kept(rest, next, maxLength);
      assert k < |rest| ==> sentences[k + 1] == rest[k];
    }
  }

  lemma {:induction false} GatherBounded(sentences: seq<string>, acc: string, maxLength: nat)
    ensures |acc| <= maxLength + 1 ==> |Gather(sentences, acc, maxLength)| <= maxLength + 1
    decreases |sentences|
  {
    if sentences != [] && |acc| + |sentences[0]| < maxLength {
      GatherBounded(sentences[1..], acc + Strip(sentences[0]) + ". ", maxLength);
    }
  }

  /** A non-empty piece of rendered text ends in ". ". */
  lemma {:induction false} RenderedEnds(sentences: seq<string>)
    requires sentences != []
    ensures |Rendered(sentences)| >= 2
    ensures Rendered(sentences)[|Rendered(sentences)| - 2..] == ". "
    decreases |sentences|
  {
    var head := Strip(sentences[0]) + ". ";
    var r := Rendered(sentences);
    var t := Rendered(sentences[1..]);
    assert r == head + t;
    if |sentences| > 1 {
      RenderedEnds(sentences[1..]);
      assert r[|r| - 2..] == t[|t| - 2..];
    } else {
      assert r == head;
    }
  }

  /** Stripping a text that ends in ". " shortens it. */
  lemma StripTrailingSpace(s: string)
    requires |s| >= 2 && s[|s| - 2..] == ". "
    ensures |Strip(s)| <= |s| - 1
  {
    var r := Strip(s);
    var o := StripOffset(s);
    assert s[|s| - 1] == s[|s| - 2..][1];
  }

  /** `_extract_key_points(text, max_length)`. */
  function KeyPoints(text: string, maxLength: nat): string
  {
    if text == "" then NoAnalysis
    else
      var result := Gather(Take(Split(text, "."), KeyPointSentences), "", maxLength);
      if result != "" then Strip(result) else Take(text, maxLength) + "..."
  }

  /** The key points of a non-empty text: when the first sentence alone does
      not fit, the first `maxLength` characters and "..."; otherwise the first
      one to four sentences, stripped and re-joined with ". ", at most
      `maxLength` characters long, stopping before the first sentence that
      does not fit. */
  lemma KeyPointsShape(text: string, maxLength: nat)
    requires text != ""
    ensures var sentences := Take(Split(text, "."), KeyPointSentences);
      var k := Kept(sentences, "", maxLength);
      && (|Split(text, ".")[0]| >= maxLength ==> KeyPoints(text, maxLength) == Take(text, maxLength) + "...")
      && (|Split(text, ".")[0]| < maxLength ==>
            1 <= k <= KeyPointSentences
            && KeyPoints(text, maxLength) == Strip(Rendered(sentences[..k]))
            && |KeyPoints(text, maxLength)| <= maxLength
            && (k < |sentences| ==> |Rendered(sentences[..k])| + |sentences[k]| >= maxLength))
  {
    var parts := Split(text, ".");
    var sentences := Take(parts, KeyPointSentences);
    GatherKeepsPrefix(sentences, "", maxLength);
    assert sentences[0] == parts[0];
    var k := Kept(sentences, "", maxLength);
    var result := Gather(sentences, "", maxLength);
    assert result == Rendered(sentences[..k]);
    if |parts[0]| < maxLength {
      assert k >= 1;
      RenderedEnds(sentences[..k]);
      StripTrailingSpace(result);
    } else {
      assert k == 0;
      assert result == "";
    }
  }

  /** The loop of `_extract_key_points`, which breaks at the first sentence
      that does not fit. */
  method ExtractKeyPoints(text: string, maxLength: nat) returns (points: string)
    ensures points == KeyPoints(text, maxLength)
  {
    if text == "" {
      return NoAnalysis;
    }
    var sentences := Take(Split(text, "."), KeyPointSentences);
    var result := "";
    var i := 0;
    while i < |sentences|
      invariant 0 <= i <= |sentences|
      invariant Gather(sentences[i..], result, maxLength) == Gather(sentences, "", maxLength)
    {
      if |result| + |sentences[i]| < maxLength {
        assert sentences[i..][1..] == sentences[i + 1..];
        result := result + Strip(sentences[i]) + ". ";
        i := i + 1;
      } else {
        break;
      }
    }
    assert result == Gather(sentences, "", maxLength);
    if result != "" {
      points := Strip(result);
    } else {
      points := Take(text, maxLength) + "...";
    }
  }

  // ---------------------------------------------------------------------------
  // The reply

  /** `final_trade_decision`: a missing or falsy value means no analysis, a
      string is cut to its key points, and any other value has no `split`. */
  function Reasoning(analysis: map<string, Json>): (r: Result<string, PyError>)
    ensures !Truthy(Get(analysis, "final_trade_decision", JStr(""))) ==> r == Ok(NoAnalysis)
    ensures Get(analysis, "final_trade_decision", JStr("")).JStr? ==>
      r == Ok(KeyPoints(Get(analysis, "final_trade_decision", JStr("")).s, KeyPointsLength))
    ensures r.Err? <==> var j := Get(analysis, "final_trade_decision", JStr("")); Truthy(j) && !j.JStr?
  {
    var j := Get(analysis, "final_trade_decision", JStr(""));
    if !Truthy(j) then Ok(NoAnalysis)
    else match j
      case JStr(s) => Ok(KeyPoints(s, KeyPointsLength))
      case _ => Err(AttributeError)
  }

  /** The values the knockout reply shows. */
  datatype Reply = Reply(
    directionLabel: string,
    symbol: string,
    name: string,
    currency: string,
    price: real,
    knockout: Knockout,
    atrPct: real,
    support: real,
    resistance: real,
    sizing: Option<Sizing>,
    profile: string,
    reasoning: string)

  /** `_format_knockout_result`: the knockout figures for the user's
      profile, the reasoning, and the sizing block when a budget is given.
      A division error in the figures comes before a reasoning error. */
  function KnockoutReply(symbol: string, direction: string, analysis: map<string, Json>,
                         s: StockData, user: UserStates.UserState, budget: Option<real>)
    : (r: Result<Reply, PyError>)
    ensures var k := KnockoutOf(direction, s, UserStates.RiskSettingsOf(user));
      k.Err? ==> r == Err(k.error)
    ensures var k := KnockoutOf(direction, s, UserStates.RiskSettingsOf(user));
      k.Ok? ==> (r.Err? <==> Reasoning(analysis).Err?)
    ensures r.Ok? ==>
      && r.value.knockout == KnockoutOf(direction, s, UserStates.RiskSettingsOf(user)).value
      && r.value.directionLabel == (if direction == "long" then "LONG" else "SHORT")
      && r.value.reasoning == Reasoning(analysis).value
      && r.value.sizing == SizingOf(budget, r.value.knockout.leverage)
      && r.value.profile == Capitalize(user.riskProfile)
      && r.value.support == s.recentLow && r.value.resistance == s.recentHigh
      && r.value.price == s.price && r.value.symbol == symbol
  {
    match KnockoutOf(direction, s, UserStates.RiskSettingsOf(user))
    case Err(e) => Err(e)
    case Ok(k) =>
      match Reasoning(analysis)
      case Err(e) => Err(e)
      case Ok(reasoning) =>
        var directionLabel := if k.direction == Long then "LONG" else "SHORT";
        Ok(Reply(directionLabel, symbol, s.name, s.currency, s.price, k, s.atrPct, s.recentLow,
                 s.recentHigh, SizingOf(budget, k.leverage), Capitalize(user.riskProfile),
                 reasoning))
  }
}
