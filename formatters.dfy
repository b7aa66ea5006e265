/** `src/notifications/formatters.py`: the Telegram messages for a single
    signal (chosen by signal type), the daily summary and the error summary.
    A message is its list of lines; emoji and the fixed German wording are
    not modelled, only which lines appear and what values they show. The
    market status is a parameter (it depends on the clock). */
module Formatters {
  import opened Wrappers
  import opened JsonValue
  import opened Text
  import opened Signals
  import MarketHours
  import SignalExtractor

  // ---------------------------------------------------------------------------
  // _calc_pct and _sentiment_label

  /** Python's `:.0f` rounding of an exact value: to the nearest integer,
      ties to even. */
  function RoundHalfEven(x: real): (n: int)
    ensures x - 0.5 <= n as real <= x + 0.5
  {
    var f := x.Floor;
    var frac := x - f as real;
    if frac < 0.5 then f
    else if frac > 0.5 then f + 1
    else if f % 2 == 0 then f else f + 1
  }

  /** `f"{x:.0f}"`: a negative value that rounds to zero prints as "-0". */
  function WholeText(x: real): (s: string)
    ensures s != [] && (s[0] == '-' <==> x < 0.0)
  {
    var n := RoundHalfEven(x);
    if n < 0 then "-" + NatToString(-n)
    else if x < 0.0 then "-0"
    else
      assert NatToString(n)[0] != '-' by { assert IsDigit(NatToString(n)[0]); }
      NatToString(n)
  }

  /** The percentage move from `current` to `target`. Only the exact
      quotient is modelled; `CalcPct` renders it. */
  function PctValue(current: real, target: real): (v: real)
    requires current != 0.0
    ensures v * current == (target - current) * 100.0
  {
    SignalExtractor.Scale(target - current, current);
    (target - current) / current * 100.0
  }

  /** `_calc_pct`: "N/A" for a zero price, else the whole percentage with a
      "+" sign for a strictly positive move. */
  function CalcPct(current: real, target: real): (s: string)
    ensures current == 0.0 ==> s == "N/A"
    ensures current != 0.0 ==>
              s == (if PctValue(current, target) > 0.0 then "+" else "") + WholeText(PctValue(current, target)) + "%"
  {
    if current == 0.0 then "N/A"
    else
      var pct := PctValue(current, target);
      (if pct > 0.0 then "+" else "") + WholeText(pct) + "%"
  }

  /** The sign shown agrees with the direction of the move: for a positive
      price "+" exactly when the target lies above it and "-" exactly when
      it lies below. */
  lemma CalcPctSign(current: real, target: real)
    requires current > 0.0
    ensures CalcPct(current, target)[0] == '+' <==> target > current
    ensures CalcPct(current, target)[0] == '-' <==> target < current
  {
    var v := PctValue(current, target);
    SignOfScaled(v, current, target - current);
    if v <= 0.0 {
      assert CalcPct(current, target) == WholeText(v) + "%";
      assert WholeText(v)[0] != '+' by {
        assert WholeText(v)[0] == '-' || IsDigit(WholeText(v)[0]);
      }
    }
  }

  /** The whole number shown lies within one half of the exact percentage. */
  lemma CalcPctRounding(current: real, target: real)
    requires current != 0.0
    ensures var v := PctValue(current, target);
            v - 0.5 <= RoundHalfEven(v) as real <= v + 0.5
  {
  }

  datatype Sentiment = Positive | SlightlyPositive | Neutral | SlightlyNegative | Negative

  /** `_sentiment_label`: fixed thresholds checked from the top. */
  function SentimentLabel(score: real): (l: Sentiment)
    ensures l == Positive <==> score >= 0.5
    ensures l == SlightlyPositive <==> 0.2 <= score < 0.5
    ensures l == Negative <==> score <= -0.5
    ensures l == SlightlyNegative <==> -0.5 < score <= -0.2
    ensures l == Neutral <==> -0.2 < score < 0.2
  {
    if score >= 0.5 then Positive
    else if score >= 0.2 then SlightlyPositive
    else if score <= -0.5 then Negative
    else if score <= -0.2 then SlightlyNegative
    else Neutral
  }

  function SentimentRank(l: Sentiment): int
  {
    match l
    case Negative => 0
    case SlightlyNegative => 1
    case Neutral => 2
    case SlightlyPositive => 3
    case Positive => 4
  }

  /** A higher score never gets a lower label. */
  lemma SentimentMonotone(a: real, b: real)
    requires a <= b
    ensures SentimentRank(SentimentLabel(a)) <= SentimentRank(SentimentLabel(b))
  {
  }

  // ---------------------------------------------------------------------------
  // Message lines

  /** Which of the three full signal formatters renders the message. */
  datatype TradeVariant = BuyVariant | SellVariant | HoldVariant

  datatype Line =
    | Blank
    | TradeHeader(variant: TradeVariant, typeLabel: string, symbol: string, name: string)
    | PriceLine(price: real)
    | ActionLine(detail: string)
    | StopLine(stop: real, pct: string)
    | StopReason(text: string)
    | TargetsHeading(variant: TradeVariant)
    | TargetItem(price: real, pct: string, action: Json)
    | EventsHeading
    | EventItem(text: string)
    | ConditionsHeading(variant: TradeVariant)
    | ConditionItem(text: string)
    | RecommendationHeading
    | RecommendationLine(text: string)
    | TimeLine(hour: nat, minute: nat, status: Option<MarketHours.Status>)
    | AlertHeading(kind: Bucket, symbol: string, name: string)
    | ApproachWarning(kind: Bucket)
    | CurrentLine(price: real)
    | SupportLine(level: real, pct: string)
    | ResistanceLine(level: real, pct: string)
    | ActionsHeading
    | BuyLimit(price: real)
    | StopBelow(price: real)
    | OptionsHeading
    | BreakoutOption
    | RejectionOption
    | ConfidenceLine(percent: int)
    | NewsLine(text: string)
    | SentimentLine(sentiment: Sentiment)
    | ImpactLine(percent: int)
    | SummaryHeading(day: nat, month: nat, year: nat)
    | SectionCount(kind: Bucket, count: nat)
    | SummaryItem(symbol: string, text: string)
    | LevelItem(symbol: string, near: Option<real>)
    | TopPickLine(symbol: string)
    | TopPickDetail(text: string)
    | ErrorCount(count: nat)
    | NextAnalysis
    | ErrorHeading
    | ErrorItem(symbol: string, text: string)
    | MoreErrors(count: nat)

  /** The number of lines satisfying `p`. */
  function Count(lines: seq<Line>, p: Line -> bool): (n: nat)
    ensures n <= |lines|
  {
    if lines == [] then 0
    else Count(lines[..|lines| - 1], p) + (if p(lines[|lines| - 1]) then 1 else 0)
  }

  lemma {:induction false} CountAppend(a: seq<Line>, b: seq<Line>, p: Line -> bool)
    ensures Count(a + b, p) == Count(a, p) + Count(b, p)
  {
    if b == [] {
      assert a + b == a;
    } else {
      CountAppend(a, b[..|b| - 1], p);
      assert (a + b)[..|a + b| - 1] == a + b[..|b| - 1];
    }
  }

  lemma {:induction false} CountNone(ls: seq<Line>, p: Line -> bool)
    requires forall l :: l in ls ==> !p(l)
    ensures Count(ls, p) == 0
  {
    if ls != [] {
      assert forall l :: l in ls[..|ls| - 1] ==> l in ls;
      CountNone(ls[..|ls| - 1], p);
    }
  }

  predicate IsTarget(l: Line) { l.TargetItem? }
  predicate IsEvent(l: Line) { l.EventItem? }
  predicate IsCondition(l: Line) { l.ConditionItem? }

  // ---------------------------------------------------------------------------
  // The BUY/LONG, SELL/SHORT and HOLD formatters

  /** The header, the price and, when there is one, the action. */
  function TradeHead(s: TradingSignal, v: TradeVariant): (r: seq<Line>)
    ensures |r| >= 3 && r[0] == TradeHeader(v, SignalTypeValue(s.signalType), s.symbol, s.name)
  {
    [TradeHeader(v, SignalTypeValue(s.signalType), s.symbol, s.name), Blank, PriceLine(s.currentPrice)]
    + (if s.actionDetail != "" then [ActionLine(s.actionDetail)] else [])
  }

  /** How much of the stop reasoning is shown: 60 characters, 80 for HOLD. */
  function ReasonCut(v: TradeVariant): nat
  {
    if v == HoldVariant then 80 else 60
  }

  /** The stop-loss line and its reasoning, for a non-zero stop. */
  function StopSection(s: TradingSignal, v: TradeVariant): (r: seq<Line>)
    ensures forall l :: l in r ==> l.StopLine? || (l.StopReason? && |l.text| <= ReasonCut(v))
  {
    if s.stopLoss.Some? && s.stopLoss.value != 0.0 then
      [StopLine(s.stopLoss.value, CalcPct(s.currentPrice, s.stopLoss.value))]
      + (if s.stopLossReasoning != "" then [StopReason(Take(s.stopLossReasoning, ReasonCut(v)))] else [])
    else []
  }

  /** One target: a dict with a truthy "price" gives a line with its
      percentage; the percentage needs a number unless the price is zero,
      and the `:.2f` format needs a number. */
  function TargetEntry(t: Json, current: real): (r: Result<seq<Line>, PyError>)
    ensures r.Ok? ==> |r.value| <= 1 && forall l :: l in r.value ==> l.TargetItem?
  {
    if t.JObj? && Truthy(Get(t.fields, "price", JNull)) then
      var p := Get(t.fields, "price", JNull);
      if current != 0.0 && AsNumber(p).None? then Err(TypeError)
      else
        match SignalExtractor.FormatNumber(p)
        case Err(e) => Err(e)
        case Ok(price) =>
          Ok([TargetItem(price, CalcPct(current, price), Get(t.fields, "action", JStr("")))])
    else Ok([])
  }

  /** The target lines of a list of targets, in order. */
  function TargetEntries(ts: seq<Json>, current: real): (r: Result<seq<Line>, PyError>)
    ensures r.Ok? ==> |r.value| <= |ts| && forall l :: l in r.value ==> l.TargetItem?
  {
    if ts == [] then Ok([])
    else
      match TargetEntries(ts[..|ts| - 1], current)
      case Err(e) => Err(e)
      case Ok(front) =>
        match TargetEntry(ts[|ts| - 1], current)
        case Err(e) => Err(e)
        case Ok(last) => Ok(front + last)
  }

  /** The target section: blank, heading and the lines of the first three
      targets, when there are targets. */
  function TargetSection(s: TradingSignal, v: TradeVariant): (r: Result<seq<Line>, PyError>)
    ensures r.Ok? ==> Count(r.value, IsTarget) <= 3
    ensures r.Ok? ==> forall l :: l in r.value ==> l.TargetItem? || l == Blank || l == TargetsHeading(v)
  {
    if s.exitTargets == [] then Ok([])
    else
      match TargetEntries(Take(s.exitTargets, 3), s.currentPrice)
      case Err(e) => Err(e)
      case Ok(items) =>
        CountAppend([Blank, TargetsHeading(v)], items, IsTarget);
        CountNone([Blank, TargetsHeading(v)], IsTarget);
        Ok([Blank, TargetsHeading(v)] + items)
  }

  function EventItems(es: seq<string>): (r: seq<Line>)
    ensures |r| == |es| && forall k :: 0 <= k < |es| ==> r[k] == EventItem(es[k])
  {
    seq(|es|, k requires 0 <= k < |es| => EventItem(es[k]))
  }

  function ConditionItems(cs: seq<string>): (r: seq<Line>)
    ensures |r| == |cs| && forall k :: 0 <= k < |cs| ==> r[k] == ConditionItem(cs[k])
  {
    seq(|cs|, k requires 0 <= k < |cs| => ConditionItem(cs[k]))
  }

  lemma {:induction false} CountAll(ls: seq<Line>, p: Line -> bool)
    requires forall k :: 0 <= k < |ls| ==> p(ls[k])
    ensures Count(ls, p) == |ls|
  {
    if ls != [] {
      CountAll(ls[..|ls| - 1], p);
    }
  }

  function EventSection(s: TradingSignal): (r: seq<Line>)
    ensures Count(r, IsEvent) <= 3
    ensures forall l :: l in r ==> l.EventItem? || l == Blank || l == EventsHeading
  {
    if s.keyEvents == [] then []
    else
      var items := EventItems(Take(s.keyEvents, 3));
      CountAppend([Blank, EventsHeading], items, IsEvent);
      CountNone([Blank, EventsHeading], IsEvent);
      CountAll(items, IsEvent);
      [Blank, EventsHeading] + items
  }

  function ConditionSection(s: TradingSignal, v: TradeVariant): (r: seq<Line>)
    ensures Count(r, IsCondition) <= 3
    ensures forall l :: l in r ==> l.ConditionItem? || l == Blank || l == ConditionsHeading(v)
  {
    if s.exitConditions == [] then []
    else
      var items := ConditionItems(Take(s.exitConditions, 3));
      CountAppend([Blank, ConditionsHeading(v)], items, IsCondition);
      CountNone([Blank, ConditionsHeading(v)], IsCondition);
      CountAll(items, IsCondition);
      [Blank, ConditionsHeading(v)] + items
  }

  /** The recommendation, cut to 400 characters, when there is one. */
  function RecommendationSection(s: TradingSignal): (r: seq<Line>)
    ensures forall l :: l in r ==> l == Blank || l == RecommendationHeading
                                   || (l.RecommendationLine? && |l.text| <= 400 && |l.text| <= |s.finalRecommendation|
                                       && l.text == s.finalRecommendation[..|l.text|])
  {
    if s.finalRecommendation != "" then
      [Blank, RecommendationHeading, RecommendationLine(Take(s.finalRecommendation, 400))]
    else []
  }

  /** The message of `_format_buy_signal`, `_format_sell_signal` or
      `_format_hold_signal`. */
  function TradeMessage(s: TradingSignal, v: TradeVariant, status: MarketHours.Status): (r: Result<seq<Line>, PyError>)
    ensures r.Ok? <==> TargetSection(s, v).Ok?
    ensures r.Ok? ==> r.value == TradeHead(s, v) + StopSection(s, v) + TargetSection(s, v).value + EventSection(s)
                                 + ConditionSection(s, v) + RecommendationSection(s)
                                 + [Blank, TimeLine(s.hour, s.minute, Some(status))]
  {
    match TargetSection(s, v)
    case Err(e) => Err(e)
    case Ok(targets) =>
      Ok(TradeHead(s, v) + StopSection(s, v) + targets + EventSection(s) + ConditionSection(s, v)
         + RecommendationSection(s) + [Blank, TimeLine(s.hour, s.minute, Some(status))])
  }

  /** Every full signal message shows at most three targets, three events
      and three conditions. */
  lemma TradeMessageBounds(s: TradingSignal, v: TradeVariant, status: MarketHours.Status)
    requires TradeMessage(s, v, status).Ok?
    ensures Count(TradeMessage(s, v, status).value, IsTarget) <= 3
    ensures Count(TradeMessage(s, v, status).value, IsEvent) <= 3
    ensures Count(TradeMessage(s, v, status).value, IsCondition) <= 3
  {
    TradeMessageCount(s, v, status, IsTarget, 0);
    TradeMessageCount(s, v, status, IsEvent, 1);
    TradeMessageCount(s, v, status, IsCondition, 2);
  }

  /** The count of one kind of list line in a trade message is its count in
      the section that holds that kind. */
  lemma TradeMessageCount(s: TradingSignal, v: TradeVariant, status: MarketHours.Status, p: Line -> bool, which: nat)
    requires TradeMessage(s, v, status).Ok?
    requires (which == 0 && p == IsTarget) || (which == 1 && p == IsEvent) || (which == 2 && p == IsCondition)
    ensures Count(TradeMessage(s, v, status).value, p)
            == Count([TargetSection(s, v).value, EventSection(s), ConditionSection(s, v)][which], p)
  {
    var h := TradeHead(s, v) + StopSection(s, v);
    var t := TargetSection(s, v).value;
    var e := EventSection(s);
    var c := ConditionSection(s, v);
    var m := RecommendationSection(s) + [Blank, TimeLine(s.hour, s.minute, Some(status))];
    TradeMessageSplit(s, v, status);
    PlainLines(s, v, status);
    SectionKinds(s, v);
    SectionCounts(h, t, e, c, m, p, which);
  }

  /** A trade message as its head, its three list sections and its tail. */
  lemma TradeMessageSplit(s: TradingSignal, v: TradeVariant, status: MarketHours.Status)
    requires TradeMessage(s, v, status).Ok?
    ensures TradeMessage(s, v, status).value
            == (TradeHead(s, v) + StopSection(s, v)) + TargetSection(s, v).value + EventSection(s)
               + ConditionSection(s, v) + (RecommendationSection(s) + [Blank, TimeLine(s.hour, s.minute, Some(status))])
  {
  }

  /** The head and the tail of a trade message hold no list item. */
  lemma PlainLines(s: TradingSignal, v: TradeVariant, status: MarketHours.Status)
    ensures forall l :: l in TradeHead(s, v) + StopSection(s, v)
                        || l in RecommendationSection(s) + [Blank, TimeLine(s.hour, s.minute, Some(status))]
                        ==> !l.TargetItem? && !l.EventItem? && !l.ConditionItem?
  {
    PlainHead(s, v);
    PlainTail(s, status);
  }

  lemma PlainHead(s: TradingSignal, v: TradeVariant)
    ensures forall l :: l in TradeHead(s, v) + StopSection(s, v) ==> !l.TargetItem? && !l.EventItem? && !l.ConditionItem?
  {
  }

  lemma PlainTail(s: TradingSignal, status: MarketHours.Status)
    ensures forall l :: l in RecommendationSection(s) + [Blank, TimeLine(s.hour, s.minute, Some(status))]
                        ==> !l.TargetItem? && !l.EventItem? && !l.ConditionItem?
  {
  }

  /** Each list section holds items of its own kind only. */
  lemma SectionKinds(s: TradingSignal, v: TradeVariant)
    requires TargetSection(s, v).Ok?
    ensures forall l :: l in TargetSection(s, v).value ==> !l.EventItem? && !l.ConditionItem?
    ensures forall l :: l in EventSection(s) ==> !l.TargetItem? && !l.ConditionItem?
    ensures forall l :: l in ConditionSection(s, v) ==> !l.TargetItem? && !l.EventItem?
  {
  }

  /** The count over five consecutive sections, when only the middle one
      selected by `which` has matching lines. */
  lemma SectionCounts(h: seq<Line>, t: seq<Line>, e: seq<Line>, c: seq<Line>, m: seq<Line>,
                      p: Line -> bool, which: nat)
    requires which < 3
    requires forall l :: l in h || l in m ==> !p(l)
    requires which != 0 ==> forall l :: l in t ==> !p(l)
    requires which != 1 ==> forall l :: l in e ==> !p(l)
    requires which != 2 ==> forall l :: l in c ==> !p(l)
    ensures Count(h + t + e + c + m, p) == Count([t, e, c][which], p)
  {
    CountAppend(h + t + e + c, m, p);
    CountAppend(h + t + e, c, p);
    CountAppend(h + t, e, p);
    CountAppend(h, t, p);
    CountNone(h, p);
    CountNone(m, p);
    if which != 0 { CountNone(t, p); }
    if which != 1 { CountNone(e, p); }
    if which != 2 { CountNone(c, p); }
  }

  /** The recommendation shown is a prefix of at most 400 characters, and
      the stop reasoning a prefix of at most 60 (80 for HOLD). */
  lemma TradeMessageCuts(s: TradingSignal, v: TradeVariant, status: MarketHours.Status)
    requires TradeMessage(s, v, status).Ok?
    ensures forall l :: l in TradeMessage(s, v, status).value && l.RecommendationLine? ==>
              |l.text| <= 400 && |l.text| <= |s.finalRecommendation| && l.text == s.finalRecommendation[..|l.text|]
    ensures forall l :: l in TradeMessage(s, v, status).value && l.StopReason? ==> |l.text| <= ReasonCut(v)
  {
    var h := TradeHead(s, v);
    var st := StopSection(s, v);
    var t := TargetSection(s, v).value;
    var e := EventSection(s);
    var c := ConditionSection(s, v);
    var m := RecommendationSection(s);
    var z := [Blank, TimeLine(s.hour, s.minute, Some(status))];
    var msg := TradeMessage(s, v, status).value;
    assert msg == h + st + t + e + c + m + z;
    HeadNotCut(s, v);
    forall l | l in msg
      ensures l.RecommendationLine? ==> |l.text| <= 400 && |l.text| <= |s.finalRecommendation|
                                        && l.text == s.finalRecommendation[..|l.text|]
      ensures l.StopReason? ==> |l.text| <= ReasonCut(v)
    {
      InConcat7(l, h, st, t, e, c, m, z);
    }
  }

  lemma HeadNotCut(s: TradingSignal, v: TradeVariant)
    ensures forall l :: l in TradeHead(s, v) ==> !l.RecommendationLine? && !l.StopReason?
  {
  }

  lemma InConcat7(l: Line, a: seq<Line>, b: seq<Line>, c: seq<Line>, d: seq<Line>, e: seq<Line>, f: seq<Line>, g: seq<Line>)
    requires l in a + b + c + d + e + f + g
    ensures l in a || l in b || l in c || l in d || l in e || l in f || l in g
  {
  }

  /** Appends the target lines one target at a time. */
  method AppendTargets(lines: seq<Line>, ts: seq<Json>, current: real) returns (r: Result<seq<Line>, PyError>)
    ensures r == (match TargetEntries(ts, current)
                  case Err(e) => Err(e)
                  case Ok(items) => Ok(lines + items))
  {
    var out := lines;
    var i := 0;
    while i < |ts|
      invariant 0 <= i <= |ts|
      invariant TargetEntries(ts[..i], current).Ok?
      invariant out == lines + TargetEntries(ts[..i], current).value
    {
      assert ts[..i + 1][..i] == ts[..i];
      var entry := TargetEntry(ts[i], current);
      if entry.Err? {
        ErrorPersists(ts, i + 1, current);
        return Err(entry.error);
      }
      out := out + entry.value;
      i := i + 1;
    }
    assert ts[..i] == ts;
    r := Ok(out);
  }

  /** Once a prefix fails, every longer prefix fails with the same error. */
  lemma {:induction false} ErrorPersists(ts: seq<Json>, k: nat, current: real)
    requires 0 < k <= |ts| && TargetEntries(ts[..k], current).Err?
    ensures TargetEntries(ts, current) == TargetEntries(ts[..k], current)
    decreases |ts| - k
  {
    if k < |ts| {
      assert ts[..k + 1][..k] == ts[..k];
      ErrorPersists(ts, k + 1, current);
    } else {
      assert ts[..k] == ts;
    }
  }

  /** The three full formatters: each section built in the source's order
      and appended to the message. */
  method FormatTradeSignal(s: TradingSignal, v: TradeVariant, status: MarketHours.Status)
    returns (r: Result<seq<Line>, PyError>)
    ensures r == TradeMessage(s, v, status)
  {
    var lines := BuildHead(s, v);
    var targets := BuildTargets(s, v);
    if targets.Err? {
      return Err(targets.error);
    }
    lines := lines + targets.value;
    var events := BuildEvents(s);
    lines := lines + events;
    var conditions := BuildConditions(s, v);
    lines := lines + conditions;
    ghost var body := lines;
    if s.finalRecommendation != "" {
      var rec := Take(s.finalRecommendation, 400);
      lines := lines + [Blank, RecommendationHeading, RecommendationLine(rec)];
    }
    assert lines == body + RecommendationSection(s);
    lines := lines + [Blank, TimeLine(s.hour, s.minute, Some(status))];
    TradeMessageParts(s, v, status, body, lines);
    r := Ok(lines);
  }

  lemma TradeMessageParts(s: TradingSignal, v: TradeVariant, status: MarketHours.Status, body: seq<Line>, lines: seq<Line>)
    requires TargetSection(s, v).Ok?
    requires body == TradeHead(s, v) + StopSection(s, v) + TargetSection(s, v).value + EventSection(s)
                     + ConditionSection(s, v)
    requires lines == body + RecommendationSection(s) + [Blank, TimeLine(s.hour, s.minute, Some(status))]
    ensures TradeMessage(s, v, status) == Ok(lines)
  {
  }

  method BuildHead(s: TradingSignal, v: TradeVariant) returns (lines: seq<Line>)
    ensures lines == TradeHead(s, v) + StopSection(s, v)
  {
    lines := [TradeHeader(v, SignalTypeValue(s.signalType), s.symbol, s.name), Blank, PriceLine(s.currentPrice)];
    if s.actionDetail != "" {
      lines := lines + [ActionLine(s.actionDetail)];
    }
    if s.stopLoss.Some? && s.stopLoss.value != 0.0 {
      var stopPct := CalcPct(s.currentPrice, s.stopLoss.value);
      lines := lines + [StopLine(s.stopLoss.value, stopPct)];
      if s.stopLossReasoning != "" {
        lines := lines + [StopReason(Take(s.stopLossReasoning, ReasonCut(v)))];
      }
    }
  }

  method BuildTargets(s: TradingSignal, v: TradeVariant) returns (r: Result<seq<Line>, PyError>)
    ensures r == TargetSection(s, v)
  {
    if s.exitTargets == [] {
      return Ok([]);
    }
    r := AppendTargets([Blank, TargetsHeading(v)], Take(s.exitTargets, 3), s.currentPrice);
  }

  method BuildEvents(s: TradingSignal) returns (lines: seq<Line>)
    ensures lines == EventSection(s)
  {
    lines := [];
    if s.keyEvents != [] {
      lines := [Blank, EventsHeading];
      var events := Take(s.keyEvents, 3);
      var i := 0;
      while i < |events|
        invariant 0 <= i <= |events|
        invariant lines == [Blank, EventsHeading] + EventItems(events[..i])
      {
        assert EventItems(events[..i + 1]) == EventItems(events[..i]) + [EventItem(events[i])];
        lines := lines + [EventItem(events[i])];
        i := i + 1;
      }
      assert events[..i] == events;
    }
  }

  method BuildConditions(s: TradingSignal, v: TradeVariant) returns (lines: seq<Line>)
    ensures lines == ConditionSection(s, v)
  {
    lines := [];
    if s.exitConditions != [] {
      lines := [Blank, ConditionsHeading(v)];
      var conditions := Take(s.exitConditions, 3);
      var i := 0;
      while i < |conditions|
        invariant 0 <= i <= |conditions|
        invariant lines == [Blank, ConditionsHeading(v)] + ConditionItems(conditions[..i])
      {
        assert ConditionItems(conditions[..i + 1]) == ConditionItems(conditions[..i]) + [ConditionItem(conditions[i])];
        lines := lines + [ConditionItem(conditions[i])];
        i := i + 1;
      }
      assert conditions[..i] == conditions;
    }
  }

  // ---------------------------------------------------------------------------
  // The alert formatters

  /** Python's `x or y` on an optional price: the level when it is truthy. */
  function LevelOr(level: Option<real>, fallback: real): real
  {
    if level.Some? && level.value != 0.0 then level.value else fallback
  }

  predicate HasLevel(level: Option<real>) { level.Some? && level.value != 0.0 }

  /** `_format_support_alert`: the support and resistance lines when the
      levels are set; the buy limit is the support or 98% of the price, the
      stop 97% of the support or of the price. */
  function SupportAlertMessage(s: TradingSignal): (r: seq<Line>)
    ensures |r| >= 12 && r[0] == AlertHeading(SupportBucket, s.symbol, "")
    ensures BuyLimit(LevelOr(s.supportLevel, s.currentPrice * 0.98)) in r
    ensures StopBelow(LevelOr(s.supportLevel, s.currentPrice) * 0.97) in r
    ensures HasLevel(s.supportLevel) <==> exists l :: l in r && l.SupportLine?
    ensures HasLevel(s.resistanceLevel) <==> exists l :: l in r && l.ResistanceLine?
  {
    var supportPct := CalcPct(s.currentPrice, LevelOr(s.supportLevel, 0.0));
    var resistancePct := CalcPct(s.currentPrice, LevelOr(s.resistanceLevel, 0.0));
    var levels :=
      (if HasLevel(s.supportLevel) then [SupportLine(s.supportLevel.value, supportPct)] else [])
      + (if HasLevel(s.resistanceLevel) then [ResistanceLine(s.resistanceLevel.value, resistancePct)] else []);
    var head := [AlertHeading(SupportBucket, s.symbol, ""), Blank, ApproachWarning(SupportBucket), Blank,
                 CurrentLine(s.currentPrice)];
    var tail := [Blank, ActionsHeading, BuyLimit(LevelOr(s.supportLevel, s.currentPrice * 0.98)),
                 StopBelow(LevelOr(s.supportLevel, s.currentPrice) * 0.97), Blank,
                 ConfidenceLine(RoundHalfEven(s.confidence)), TimeLine(s.hour, s.minute, None)];
    var r := head + levels + tail;
    assert r[|head| + |levels| + 2] == tail[2] && r[|head| + |levels| + 3] == tail[3];
    assert HasLevel(s.supportLevel) ==> r[|head|].SupportLine?;
    assert HasLevel(s.resistanceLevel) ==> r[|head| + |levels| - 1].ResistanceLine?;
    assert forall l :: l in head || l in tail ==> !l.SupportLine? && !l.ResistanceLine?;
    r
  }

  /** With a positive price and no negative support, the suggested stop
      lies below the suggested buy limit. */
  lemma SupportStopBelowLimit(s: TradingSignal)
    requires s.currentPrice > 0.0
    requires s.supportLevel.Some? ==> s.supportLevel.value >= 0.0
    ensures LevelOr(s.supportLevel, s.currentPrice) * 0.97 < LevelOr(s.supportLevel, s.currentPrice * 0.98)
  {
  }

  /** `_format_resistance_alert`: the resistance line first, then the
      support line, each only when its level is set. */
  function ResistanceAlertMessage(s: TradingSignal): (r: seq<Line>)
    ensures |r| >= 12 && r[0] == AlertHeading(ResistanceBucket, s.symbol, "")
    ensures HasLevel(s.supportLevel) <==> exists l :: l in r && l.SupportLine?
    ensures HasLevel(s.resistanceLevel) <==> exists l :: l in r && l.ResistanceLine?
    ensures HasLevel(s.supportLevel) && HasLevel(s.resistanceLevel) ==>
              r[5] == ResistanceLine(s.resistanceLevel.value, CalcPct(s.currentPrice, s.resistanceLevel.value))
              && r[6] == SupportLine(s.supportLevel.value, CalcPct(s.currentPrice, s.supportLevel.value))
  {
    var levels :=
      (if HasLevel(s.resistanceLevel)
       then [ResistanceLine(s.resistanceLevel.value, CalcPct(s.currentPrice, s.resistanceLevel.value))] else [])
      + (if HasLevel(s.supportLevel)
         then [SupportLine(s.supportLevel.value, CalcPct(s.currentPrice, s.supportLevel.value))] else []);
    var head := [AlertHeading(ResistanceBucket, s.symbol, ""), Blank, ApproachWarning(ResistanceBucket), Blank,
                 CurrentLine(s.currentPrice)];
    var tail := [Blank, OptionsHeading, BreakoutOption, RejectionOption, Blank,
                 ConfidenceLine(RoundHalfEven(s.confidence)), TimeLine(s.hour, s.minute, None)];
    var r := head + levels + tail;
    assert HasLevel(s.resistanceLevel) ==> r[|head|].ResistanceLine?;
    assert HasLevel(s.supportLevel) ==> r[|head| + |levels| - 1].SupportLine?;
    assert forall l :: l in head || l in tail ==> !l.SupportLine? && !l.ResistanceLine?;
    r
  }

  /** `_format_news_alert`: the summary line only when there is a summary,
      then the sentiment label and the impact score. */
  function NewsAlertMessage(s: TradingSignal): (r: seq<Line>)
    ensures r != [] && r[0] == AlertHeading(NewsBucket, s.symbol, s.name)
    ensures (s.newsSummary.Some? && s.newsSummary.value != "") <==> exists l :: l in r && l.NewsLine?
    ensures SentimentLine(SentimentLabel(s.sentimentScore)) in r
  {
    var head := [AlertHeading(NewsBucket, s.symbol, s.name), Blank, CurrentLine(s.currentPrice), Blank];
    var news := if s.newsSummary.Some? && s.newsSummary.value != "" then [NewsLine(s.newsSummary.value)] else [];
    var tail := [Blank, SentimentLine(SentimentLabel(s.sentimentScore)), ImpactLine(RoundHalfEven(s.confidence)),
                 Blank, TimeLine(s.hour, s.minute, None)];
    var r := head + news + tail;
    assert r[|head| + |news| + 1] == tail[1];
    assert news != [] ==> r[|head|] == news[0];
    assert forall l :: l in head || l in tail ==> !l.NewsLine?;
    r
  }

  // ---------------------------------------------------------------------------
  // format_signal

  /** The formatter a message came from, read off its first line. */
  function FormatterOf(lines: seq<Line>): Option<Bucket>
  {
    if lines == [] then None
    else
      match lines[0]
      case TradeHeader(v, _, _, _) =>
        Some(match v
             case BuyVariant => BuyBucket
             case SellVariant => SellBucket
             case HoldVariant => HoldBucket)
      case AlertHeading(kind, _, _) => Some(kind)
      case _ => None
  }

  /** `format_signal`: BUY/LONG and SELL/SHORT to the full buy and sell
      formatters, the three alert types to theirs, everything else to the
      HOLD formatter. */
  function FormatSignal(s: TradingSignal, status: MarketHours.Status): (r: Result<seq<Line>, PyError>)
    ensures s.signalType in {SupportAlert, ResistanceAlert, NewsAlert} ==> r.Ok?
  {
    if s.signalType in {Buy, Long} then TradeMessage(s, BuyVariant, status)
    else if s.signalType in {Sell, Short} then TradeMessage(s, SellVariant, status)
    else if s.signalType == SupportAlert then Ok(SupportAlertMessage(s))
    else if s.signalType == ResistanceAlert then Ok(ResistanceAlertMessage(s))
    else if s.signalType == NewsAlert then Ok(NewsAlertMessage(s))
    else TradeMessage(s, HoldVariant, status)
  }

  /** The dispatch agrees with the summary's buckets: a signal is rendered
      by the formatter of the bucket `add_signal` puts it in. */
  lemma DispatchMatchesBuckets(s: TradingSignal, status: MarketHours.Status)
    requires FormatSignal(s, status).Ok?
    ensures FormatterOf(FormatSignal(s, status).value) == Some(BucketOf(s.signalType))
  {
    if s.signalType in {SupportAlert, ResistanceAlert, NewsAlert} {
      DispatchAlert(s, status);
    } else {
      DispatchTrade(s, status);
    }
  }

  /** The alert types are rendered by their own alert formatters. */
  lemma DispatchAlert(s: TradingSignal, status: MarketHours.Status)
    requires s.signalType in {SupportAlert, ResistanceAlert, NewsAlert}
    ensures FormatterOf(FormatSignal(s, status).value) == Some(BucketOf(s.signalType))
  {
    match s.signalType
    case SupportAlert => DispatchSupport(s, status);
    case ResistanceAlert => DispatchResistance(s, status);
    case NewsAlert => DispatchNews(s, status);
  }

  /** A support alert is rendered by the support formatter. */
  lemma DispatchSupport(s: TradingSignal, status: MarketHours.Status)
    requires s.signalType == SupportAlert
    ensures FormatSignal(s, status).Ok? && FormatterOf(FormatSignal(s, status).value) == Some(SupportBucket)
  {
    var m := SupportAlertMessage(s);
    assert FormatSignal(s, status) == Ok(m);
    AlertFormatter(m, SupportBucket, s.symbol, "");
  }

  /** A resistance alert is rendered by the resistance formatter. */
  lemma DispatchResistance(s: TradingSignal, status: MarketHours.Status)
    requires s.signalType == ResistanceAlert
    ensures FormatSignal(s, status).Ok? && FormatterOf(FormatSignal(s, status).value) == Some(ResistanceBucket)
  {
    var m := ResistanceAlertMessage(s);
    assert FormatSignal(s, status) == Ok(m);
    AlertFormatter(m, ResistanceBucket, s.symbol, "");
  }

  /** A news alert is rendered by the news formatter. */
  lemma DispatchNews(s: TradingSignal, status: MarketHours.Status)
    requires s.signalType == NewsAlert
    ensures FormatSignal(s, status).Ok? && FormatterOf(FormatSignal(s, status).value) == Some(NewsBucket)
  {
    var m := NewsAlertMessage(s);
    assert FormatSignal(s, status) == Ok(m);
    AlertFormatter(m, NewsBucket, s.symbol, s.name);
  }

  /** A message opening with an alert heading is read off as that alert. */
  lemma AlertFormatter(m: seq<Line>, kind: Bucket, symbol: string, name: string)
    requires m != [] && m[0] == AlertHeading(kind, symbol, name)
    ensures FormatterOf(m) == Some(kind)
  {
  }

  /** The other types are rendered by the trade formatter of their bucket. */
  lemma DispatchTrade(s: TradingSignal, status: MarketHours.Status)
    requires s.signalType !in {SupportAlert, ResistanceAlert, NewsAlert}
    requires FormatSignal(s, status).Ok?
    ensures FormatterOf(FormatSignal(s, status).value) == Some(BucketOf(s.signalType))
  {
    match s.signalType
    case Buy =>
      TradeFormatter(s, BuyVariant, status);
    case Long =>
      TradeFormatter(s, BuyVariant, status);
    case Sell =>
      TradeFormatter(s, SellVariant, status);
    case Short =>
      TradeFormatter(s, SellVariant, status);
    case Hold =>
      TradeFormatter(s, HoldVariant, status);
  }

  /** A trade message is read off as its variant's bucket. */
  lemma TradeFormatter(s: TradingSignal, v: TradeVariant, status: MarketHours.Status)
    requires TradeMessage(s, v, status).Ok?
    ensures FormatterOf(TradeMessage(s, v, status).value)
            == Some(match v case BuyVariant => BuyBucket case SellVariant => SellBucket case HoldVariant => HoldBucket)
  {
    TradeMessageFirst(s, v, status);
  }

  lemma HeadOfConcat(a: seq<Line>, b: seq<Line>)
    requires a != []
    ensures (a + b)[0] == a[0]
  {
  }

  /** A trade message opens with the header of its variant. */
  lemma TradeMessageFirst(s: TradingSignal, v: TradeVariant, status: MarketHours.Status)
    requires TradeMessage(s, v, status).Ok?
    ensures TradeMessage(s, v, status).value != []
    ensures TradeMessage(s, v, status).value[0] == TradeHeader(v, SignalTypeValue(s.signalType), s.symbol, s.name)
  {
    TradeMessageSplit(s, v, status);
    HeadOfConcat(TradeHead(s, v), StopSection(s, v));
    FirstOfSections(TradeHead(s, v) + StopSection(s, v), TargetSection(s, v).value, EventSection(s),
                    ConditionSection(s, v), RecommendationSection(s) + [Blank, TimeLine(s.hour, s.minute, Some(status))]);
  }

  lemma FirstOfSections(h: seq<Line>, t: seq<Line>, e: seq<Line>, c: seq<Line>, m: seq<Line>)
    requires h != []
    ensures (h + t + e + c + m)[0] == h[0]
  {
  }

  // ---------------------------------------------------------------------------
  // format_summary

  /** A BUY or SELL summary entry: the action cut to 80 characters, or the
      bucket's word when there is no action. */
  function ActionEntry(s: TradingSignal, word: string): Line
  {
    SummaryItem(s.symbol, if s.actionDetail != "" then Take(s.actionDetail, 80) else word)
  }

  function ActionEntries(ss: seq<TradingSignal>, word: string): (r: seq<Line>)
    ensures |r| == |ss| && forall k :: 0 <= k < |ss| ==> r[k] == ActionEntry(ss[k], word)
  {
    seq(|ss|, k requires 0 <= k < |ss| => ActionEntry(ss[k], word))
  }

  /** A support or resistance entry with its level when that is set. */
  function LevelEntries(ss: seq<TradingSignal>, support: bool): (r: seq<Line>)
    ensures |r| == |ss|
  {
    seq(|ss|, k requires 0 <= k < |ss| =>
      var level := if support then ss[k].supportLevel else ss[k].resistanceLevel;
      LevelItem(ss[k].symbol, if HasLevel(level) then level else None))
  }

  /** A HOLD entry: the action or "Halten", cut to 80 characters. */
  function HoldEntries(ss: seq<TradingSignal>): (r: seq<Line>)
    ensures |r| == |ss|
  {
    seq(|ss|, k requires 0 <= k < |ss| =>
      SummaryItem(ss[k].symbol, Take(if ss[k].actionDetail != "" then ss[k].actionDetail else "Halten", 80)))
  }

  /** A bucket's section: its count, one entry per signal and a blank line,
      only when the bucket is non-empty. */
  function Section(kind: Bucket, count: nat, entries: seq<Line>): seq<Line>
  {
    if count == 0 then [] else [SectionCount(kind, count)] + entries + [Blank]
  }

  function TopPickSection(top: Option<TradingSignal>): seq<Line>
  {
    match top
    case None => []
    case Some(t) =>
      [TopPickLine(t.symbol)] + (if t.actionDetail != "" then [TopPickDetail(Take(t.actionDetail, 100))] else [])
      + [Blank]
  }

  function ErrorSection(errors: seq<string>): (r: seq<Line>)
    ensures errors == [] <==> r == []
  {
    if errors == [] then [] else [ErrorCount(|errors|), Blank]
  }

  /** The summary message for the buckets of a daily summary. */
  function SummaryMessage(day: nat, month: nat, year: nat,
                          buy: seq<TradingSignal>, sell: seq<TradingSignal>,
                          support: seq<TradingSignal>, resistance: seq<TradingSignal>,
                          hold: seq<TradingSignal>, top: Option<TradingSignal>,
                          errors: seq<string>): seq<Line>
  {
    [SummaryHeading(day, month, year), Blank]
    + Section(BuyBucket, |buy|, ActionEntries(buy, "BUY"))
    + Section(SellBucket, |sell|, ActionEntries(sell, "SELL"))
    + Section(SupportBucket, |support|, LevelEntries(support, true))
    + Section(ResistanceBucket, |resistance|, LevelEntries(resistance, false))
    + Section(HoldBucket, |hold|, HoldEntries(Take(hold, 3)))
    + TopPickSection(top)
    + ErrorSection(errors)
    + [NextAnalysis]
  }

  predicate IsErrorCount(l: Line) { l.ErrorCount? }

  /** The HOLD section counts every HOLD signal but lists at most three,
      and the error line appears exactly when there are errors. */
  lemma SummaryShape(day: nat, month: nat, year: nat,
                     buy: seq<TradingSignal>, sell: seq<TradingSignal>,
                     support: seq<TradingSignal>, resistance: seq<TradingSignal>,
                     hold: seq<TradingSignal>, top: Option<TradingSignal>, errors: seq<string>)
    ensures var hs := Section(HoldBucket, |hold|, HoldEntries(Take(hold, 3)));
            hold != [] ==> hs[0] == SectionCount(HoldBucket, |hold|) && |hs| == 2 + (if |hold| < 3 then |hold| else 3)
    ensures Count(SummaryMessage(day, month, year, buy, sell, support, resistance, hold, top, errors), IsErrorCount)
            == (if errors == [] then 0 else 1)
  {
    HoldSectionShape(hold);
    ErrorLineCount(day, month, year, buy, sell, support, resistance, hold, top, errors);
  }

  lemma HoldSectionShape(hold: seq<TradingSignal>)
    ensures var hs := Section(HoldBucket, |hold|, HoldEntries(Take(hold, 3)));
            hold != [] ==> hs[0] == SectionCount(HoldBucket, |hold|) && |hs| == 2 + (if |hold| < 3 then |hold| else 3)
  {
  }

  lemma ErrorLineCount(day: nat, month: nat, year: nat,
                       buy: seq<TradingSignal>, sell: seq<TradingSignal>,
                       support: seq<TradingSignal>, resistance: seq<TradingSignal>,
                       hold: seq<TradingSignal>, top: Option<TradingSignal>, errors: seq<string>)
    ensures Count(SummaryMessage(day, month, year, buy, sell, support, resistance, hold, top, errors), IsErrorCount)
            == (if errors == [] then 0 else 1)
  {
    var front := [SummaryHeading(day, month, year), Blank]
      + Section(BuyBucket, |buy|, ActionEntries(buy, "BUY"))
      + Section(SellBucket, |sell|, ActionEntries(sell, "SELL"))
      + Section(SupportBucket, |support|, LevelEntries(support, true))
      + Section(ResistanceBucket, |resistance|, LevelEntries(resistance, false))
      + Section(HoldBucket, |hold|, HoldEntries(Take(hold, 3)))
      + TopPickSection(top);
    SummarySplit(day, month, year, buy, sell, support, resistance, hold, top, errors);
    FrontPlain(day, month, year, buy, sell, support, resistance, hold, top);
    ErrorsAfterFront(front, errors);
  }

  lemma ErrorsAfterFront(front: seq<Line>, errors: seq<string>)
    requires forall l :: l in front ==> !l.ErrorCount?
    ensures Count(front + ErrorSection(errors) + [NextAnalysis], IsErrorCount) == (if errors == [] then 0 else 1)
  {
    CountAppend(front + ErrorSection(errors), [NextAnalysis], IsErrorCount);
    CountAppend(front, ErrorSection(errors), IsErrorCount);
    CountNone(front, IsErrorCount);
    CountNone([NextAnalysis], IsErrorCount);
    if errors != [] {
      CountAppend([ErrorCount(|errors|)], [Blank], IsErrorCount);
    }
  }

  lemma SummarySplit(day: nat, month: nat, year: nat,
                     buy: seq<TradingSignal>, sell: seq<TradingSignal>,
                     support: seq<TradingSignal>, resistance: seq<TradingSignal>,
                     hold: seq<TradingSignal>, top: Option<TradingSignal>, errors: seq<string>)
    ensures SummaryMessage(day, month, year, buy, sell, support, resistance, hold, top, errors)
            == ([SummaryHeading(day, month, year), Blank]
               + Section(BuyBucket, |buy|, ActionEntries(buy, "BUY"))
               + Section(SellBucket, |sell|, ActionEntries(sell, "SELL"))
               + Section(SupportBucket, |support|, LevelEntries(support, true))
               + Section(ResistanceBucket, |resistance|, LevelEntries(resistance, false))
               + Section(HoldBucket, |hold|, HoldEntries(Take(hold, 3)))
               + TopPickSection(top)) + ErrorSection(errors) + [NextAnalysis]
  {
  }

  /** The lines before the error section hold no error count. */
  lemma FrontPlain(day: nat, month: nat, year: nat,
                   buy: seq<TradingSignal>, sell: seq<TradingSignal>,
                   support: seq<TradingSignal>, resistance: seq<TradingSignal>,
                   hold: seq<TradingSignal>, top: Option<TradingSignal>)
    ensures forall l :: l in [SummaryHeading(day, month, year), Blank]
                  + Section(BuyBucket, |buy|, ActionEntries(buy, "BUY"))
                  + Section(SellBucket, |sell|, ActionEntries(sell, "SELL"))
                  + Section(SupportBucket, |support|, LevelEntries(support, true))
                  + Section(ResistanceBucket, |resistance|, LevelEntries(resistance, false))
                  + Section(HoldBucket, |hold|, HoldEntries(Take(hold, 3)))
                  + TopPickSection(top)
                  ==> !l.ErrorCount?
  {
    var a := [SummaryHeading(day, month, year), Blank];
    var b := Section(BuyBucket, |buy|, ActionEntries(buy, "BUY"));
    var c := Section(SellBucket, |sell|, ActionEntries(sell, "SELL"));
    var d := Section(SupportBucket, |support|, LevelEntries(support, true));
    var e := Section(ResistanceBucket, |resistance|, LevelEntries(resistance, false));
    var f := Section(HoldBucket, |hold|, HoldEntries(Take(hold, 3)));
    var g := TopPickSection(top);
    SectionPlain(BuyBucket, |buy|, ActionEntries(buy, "BUY"));
    SectionPlain(SellBucket, |sell|, ActionEntries(sell, "SELL"));
    SectionPlain(SupportBucket, |support|, LevelEntries(support, true));
    SectionPlain(ResistanceBucket, |resistance|, LevelEntries(resistance, false));
    SectionPlain(HoldBucket, |hold|, HoldEntries(Take(hold, 3)));
    NoErrorCountIn(a, b);
    NoErrorCountIn(a + b, c);
    NoErrorCountIn(a + b + c, d);
    NoErrorCountIn(a + b + c + d, e);
    NoErrorCountIn(a + b + c + d + e, f);
    NoErrorCountIn(a + b + c + d + e + f, g);
  }

  lemma SectionPlain(kind: Bucket, count: nat, entries: seq<Line>)
    requires forall k :: 0 <= k < |entries| ==> !entries[k].ErrorCount?
    ensures forall l :: l in Section(kind, count, entries) ==> !l.ErrorCount?
  {
  }

  lemma NoErrorCountIn(a: seq<Line>, b: seq<Line>)
    requires forall l :: l in a ==> !l.ErrorCount?
    requires forall l :: l in b ==> !l.ErrorCount?
    ensures forall l :: l in a + b ==> !l.ErrorCount?
  {
  }

  /** `format_summary`, reading the summary's fields; entries are appended
      bucket by bucket. */
  method FormatSummary(summary: DailySummary, day: nat, month: nat, year: nat) returns (lines: seq<Line>)
    ensures lines == SummaryMessage(day, month, year, summary.buySignals, summary.sellSignals,
                                    summary.supportAlerts, summary.resistanceAlerts, summary.holdSignals,
                                    summary.topPick, summary.errors)
  {
    lines := [SummaryHeading(day, month, year), Blank];
    var buy := AppendSection(BuyBucket, ActionEntries(summary.buySignals, "BUY"));
    lines := lines + buy;
    var sell := AppendSection(SellBucket, ActionEntries(summary.sellSignals, "SELL"));
    lines := lines + sell;
    var support := AppendSection(SupportBucket, LevelEntries(summary.supportAlerts, true));
    lines := lines + support;
    var resistance := AppendSection(ResistanceBucket, LevelEntries(summary.resistanceAlerts, false));
    lines := lines + resistance;
    var hold := [];
    if summary.holdSignals != [] {
      hold := [SectionCount(HoldBucket, |summary.holdSignals|)] + HoldEntries(Take(summary.holdSignals, 3)) + [Blank];
    }
    assert hold == Section(HoldBucket, |summary.holdSignals|, HoldEntries(Take(summary.holdSignals, 3)));
    lines := lines + hold;
    ghost var beforeTop := lines;
    if summary.topPick.Some? {
      lines := lines + [TopPickLine(summary.topPick.value.symbol)];
      if summary.topPick.value.actionDetail != "" {
        lines := lines + [TopPickDetail(Take(summary.topPick.value.actionDetail, 100))];
      }
      lines := lines + [Blank];
    }
    assert lines == beforeTop + TopPickSection(summary.topPick);
    ghost var beforeErrors := lines;
    if summary.errors != [] {
      lines := lines + [ErrorCount(|summary.errors|), Blank];
    }
    assert lines == beforeErrors + ErrorSection(summary.errors);
    lines := lines + [NextAnalysis];
  }

  /** One bucket's section, its entries appended one by one. */
  method AppendSection(kind: Bucket, entries: seq<Line>) returns (section: seq<Line>)
    ensures section == Section(kind, |entries|, entries)
  {
    section := [];
    if entries != [] {
      section := [SectionCount(kind, |entries|)];
      var i := 0;
      while i < |entries|
        invariant 0 <= i <= |entries|
        invariant section == [SectionCount(kind, |entries|)] + entries[..i]
      {
        section := section + [entries[i]];
        i := i + 1;
      }
      assert entries[..i] == entries;
      section := section + [Blank];
    }
  }

  // ---------------------------------------------------------------------------
  // format_error_summary

  /** `format_error_summary`: the first ten errors, each message cut to 50
      characters followed by "...", then the number of the others. */
  method FormatErrorSummary(errors: seq<(string, string)>) returns (lines: seq<Line>)
    ensures var shown := if |errors| < 10 then |errors| else 10;
            |lines| == 2 + shown + (if |errors| > 10 then 1 else 0)
    ensures lines[..2] == [ErrorHeading, Blank]
    ensures forall k :: 0 <= k < |errors| && k < 10 ==>
              lines[2 + k] == ErrorItem(errors[k].0, Take(errors[k].1, 50) + "...")
    ensures |errors| > 10 ==> lines[|lines| - 1] == MoreErrors(|errors| - 10)
  {
    lines := [ErrorHeading, Blank];
    var first := Take(errors, 10);
    var i := 0;
    while i < |first|
      invariant 0 <= i <= |first|
      invariant |lines| == 2 + i && lines[..2] == [ErrorHeading, Blank]
      invariant forall k :: 0 <= k < i ==> lines[2 + k] == ErrorItem(first[k].0, Take(first[k].1, 50) + "...")
    {
      ghost var before := lines;
      lines := lines + [ErrorItem(first[i].0, Take(first[i].1, 50) + "...")];
      assert lines[..2] == before[..2];
      i := i + 1;
    }
    assert forall k :: 0 <= k < |first| ==> first[k] == errors[k];
    if |errors| > 10 {
      lines := lines + [MoreErrors(|errors| - 10)];
    }
  }
}
