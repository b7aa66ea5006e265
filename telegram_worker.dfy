/** `scripts/telegram_worker.py`: splitting a long Telegram message into
    chunks and sending them with a retry without Markdown, the commodity
    test, and the reply built from an analysis result. Replies are lists of
    lines; emoji and the fixed wording are not modelled, only which lines
    appear and what values they show. */
module TelegramWorker {
  import opened Wrappers
  import opened JsonValue
  import opened Text
  import SignalExtractor
  import Dicts

  // ---------------------------------------------------------------------------
  // send_telegram_message: splitting

  /** The longest text sent as one message. */
  const MaxLen: nat := 4000

  /** The splitter's loop state: the finished chunks and the chunk being
      filled. */
  datatype Packing = Packing(chunks: seq<string>, current: string)

  /** What closing the chunk being filled adds. As written (`dropBlank`
      false) any non-empty chunk is kept, even one that stripping leaves
      empty; the corrected rule keeps a chunk only when its stripped text
      is non-empty. */
  function Flush(current: string, dropBlank: bool): seq<string>
  {
    if (if dropBlank then Strip(current) != "" else current != "") then [Strip(current)] else []
  }

  /** One turn of the splitter's loop over the lines. */
  function PackStep(p: Packing, part: string, dropBlank: bool): Packing
  {
    if |p.current| + |part| + 1 <= MaxLen then Packing(p.chunks, p.current + part + "\n")
    else Packing(p.chunks + Flush(p.current, dropBlank), part + "\n")
  }

  /** The loop state after the given lines. */
  function Pack(parts: seq<string>, dropBlank: bool): Packing
  {
    if parts == [] then Packing([], "")
    else PackStep(Pack(parts[..|parts| - 1], dropBlank), parts[|parts| - 1], dropBlank)
  }

  /** The messages a text is sent as: the text itself when it fits, else
      its lines packed greedily into chunks. */
  function ChunksOf(text: string, dropBlank: bool): seq<string>
  {
    if |text| <= MaxLen then [text]
    else
      var p := Pack(Split(text, "\n"), dropBlank);
      p.chunks + Flush(p.current, dropBlank)
  }

  /** A chunk of a split text is stripped, and longer than the limit only
      when it is a single line that is itself too long. */
  predicate WellFormedChunk(c: string)
  {
    Strip(c) == c && (|c| <= MaxLen || '\n' !in c)
  }

  /** One line followed by its newline. */
  predicate OneLine(s: string)
  {
    s != [] && s[|s| - 1] == '\n' && '\n' !in s[..|s| - 1]
  }

  /** Stripping a line with its newline leaves no newline. */
  lemma StripOneLine(s: string)
    requires OneLine(s)
    ensures '\n' !in Strip(s)
  {
    var r := Strip(s);
    var o := StripOffset(s);
    if r != [] {
      assert IsSpace(s[|s| - 1]);
      var line := s[..|s| - 1];
      assert o + |r| <= |line|;
      assert r == line[o..o + |r|];
    }
  }

  /** Stripping is idempotent. */
  lemma StripStripped(s: string)
    ensures Strip(Strip(s)) == Strip(s)
  {
    StripNoSpaceAround(Strip(s));
  }

  /** A flushed chunk is well formed (and non-blank under the corrected
      rule) when the chunk being filled fits or is one line. */
  lemma FlushWellFormed(current: string, dropBlank: bool)
    requires |current| <= MaxLen || OneLine(current)
    ensures forall c :: c in Flush(current, dropBlank) ==> WellFormedChunk(c) && (dropBlank ==> c != "")
  {
    var c := Strip(current);
    StripStripped(current);
    if |current| > MaxLen {
      StripOneLine(current);
    }
    assert WellFormedChunk(c);
    assert Flush(current, dropBlank) == [] || Flush(current, dropBlank) == [c];
  }

  /** The loop keeps every finished chunk well formed, and the chunk being
      filled either fits or is a single line. */
  lemma {:induction false} PackInvariant(parts: seq<string>, dropBlank: bool)
    requires forall k :: 0 <= k < |parts| ==> '\n' !in parts[k]
    ensures forall c :: c in Pack(parts, dropBlank).chunks ==> WellFormedChunk(c) && (dropBlank ==> c != "")
    ensures |Pack(parts, dropBlank).current| <= MaxLen || OneLine(Pack(parts, dropBlank).current)
  {
    if parts != [] {
      var init := parts[..|parts| - 1];
      var part := parts[|parts| - 1];
      PackInvariant(init, dropBlank);
      var p := Pack(init, dropBlank);
      if |p.current| + |part| + 1 > MaxLen {
        FlushWellFormed(p.current, dropBlank);
        var s := part + "\n";
        assert s[..|s| - 1] == part;
      }
    }
  }

  /** Every chunk of a text too long for one message is well formed, and
      under the corrected rule none is empty. */
  lemma ChunksWellFormed(text: string, dropBlank: bool)
    requires |text| > MaxLen
    ensures forall c :: c in ChunksOf(text, dropBlank) ==> WellFormedChunk(c) && (dropBlank ==> c != "")
  {
    var parts := Split(text, "\n");
    forall k | 0 <= k < |parts|
      ensures '\n' !in parts[k]
    {
      SplitPiecesFree(text, "\n", k);
      ContainsChar(parts[k], '\n');
    }
    PackInvariant(parts, dropBlank);
    FlushWellFormed(Pack(parts, dropBlank).current, dropBlank);
  }

  /** The pieces of a long line followed by two newlines. */
  lemma SplitBlankTail(s: string)
    requires '\n' !in s
    ensures Split(s + "\n\n", "\n") == [s, "", ""]
  {
    var parts := [s, "", ""];
    assert Join(parts, "\n") == s + "\n\n" by {
      assert parts[1..] == ["", ""];
      assert Join(["", ""], "\n") == "\n";
    }
    SplitJoinChar(parts, '\n');
  }

  /** The loop over those pieces: the line fills the first chunk exactly,
      and the two empty lines start a second chunk of two newlines. */
  lemma PackBlankTail(s: string, dropBlank: bool)
    requires |s| == MaxLen - 1
    ensures Pack([s, "", ""], dropBlank) == Packing(Flush(s + "\n", dropBlank), "\n\n")
  {
    var parts := [s, ""];
    assert parts + [""] == [s, "", ""];
    PackLongLine(s, dropBlank);
    PackSnoc(parts, "", dropBlank);
    BlankAfterNewline(Pack(parts, dropBlank), dropBlank);
  }

  /** An empty line after a chunk holding one newline adds a second one. */
  lemma BlankAfterNewline(p: Packing, dropBlank: bool)
    requires p.current == "\n"
    ensures PackStep(p, "", dropBlank) == Packing(p.chunks, "\n\n")
  {
    ShortStep(p, "", dropBlank);
    assert p.current + "" + "\n" == "\n\n";
  }

  /** A line that still fits is appended to the chunk being filled. */
  lemma ShortStep(p: Packing, part: string, dropBlank: bool)
    requires |p.current| + |part| + 1 <= MaxLen
    ensures PackStep(p, part, dropBlank) == Packing(p.chunks, p.current + part + "\n")
  {
  }

  /** Packing one more line is one more step of the loop. */
  lemma PackSnoc(parts: seq<string>, part: string, dropBlank: bool)
    ensures Pack(parts + [part], dropBlank) == PackStep(Pack(parts, dropBlank), part, dropBlank)
  {
    assert (parts + [part])[..|parts|] == parts;
  }

  lemma PackLongLine(s: string, dropBlank: bool)
    requires |s| == MaxLen - 1
    ensures Pack([s, ""], dropBlank) == Packing(Flush(s + "\n", dropBlank), "\n")
  {
    assert [s, ""][..1] == [s] && [s][..0] == [];
    assert Pack([s], dropBlank) == Packing([], "" + s + "\n");
    assert "" + s + "\n" == s + "\n";
    assert [] + Flush(s + "\n", dropBlank) == Flush(s + "\n", dropBlank);
    assert "" + "\n" == "\n";
  }

  /** The chunks of the line followed by two newlines. */
  lemma ChunksBlankTail(s: string, dropBlank: bool)
    requires |s| == MaxLen - 1 && '\n' !in s
    ensures ChunksOf(s + "\n\n", dropBlank) == Flush(s + "\n", dropBlank) + Flush("\n\n", dropBlank)
  {
    SplitBlankTail(s);
    PackBlankTail(s, dropBlank);
  }

  /** A line that starts with a non-space character is not blank. */
  lemma StripNotBlank(s: string)
    requires s != [] && !IsSpace(s[0])
    ensures Strip(s) != ""
  {
    assert LStrip(s) == s;
  }

  /** As written, a line of 3999 characters followed by two newlines is
      sent as two messages, the second of them empty: the two empty lines
      after the long one form a chunk of two newlines, which is non-empty
      until it is stripped. The corrected rule sends only the line. */
  lemma BlankChunkAsWritten(s: string)
    requires |s| == MaxLen - 1 && '\n' !in s && !IsSpace(s[0])
    ensures |s + "\n\n"| > MaxLen
    ensures ChunksOf(s + "\n\n", false) == [Strip(s + "\n"), ""]
    ensures ChunksOf(s + "\n\n", true) == [Strip(s + "\n")]
  {
    ChunksBlankTail(s, false);
    ChunksBlankTail(s, true);
    FlushBlank();
    FlushLine(s, false);
    FlushLine(s, true);
    Pair(Flush(s + "\n", false), Flush("\n\n", false), Strip(s + "\n"), "");
    Single(Flush(s + "\n", true), Flush("\n\n", true), Strip(s + "\n"));
  }

  /** Two one-element sequences joined. */
  lemma Pair<T>(a: seq<T>, b: seq<T>, x: T, y: T)
    requires a == [x] && b == [y]
    ensures a + b == [x, y]
  {
  }

  /** A one-element sequence followed by nothing. */
  lemma Single<T>(a: seq<T>, b: seq<T>, x: T)
    requires a == [x] && b == []
    ensures a + b == [x]
  {
  }

  /** Two newlines make a chunk as written, and none under the corrected
      rule. */
  lemma FlushBlank()
    ensures Flush("\n\n", false) == [""] && Flush("\n\n", true) == []
  {
    assert LStrip("\n\n") == LStrip("\n") == LStrip("") == "";
  }

  /** A line that starts with a non-space character makes a chunk. */
  lemma FlushLine(s: string, dropBlank: bool)
    requires s != [] && !IsSpace(s[0])
    ensures Flush(s + "\n", dropBlank) == [Strip(s + "\n")]
  {
    StripNotBlank(s + "\n");
  }

  /** `send_telegram_message`'s splitting loop. As written (`dropBlank`
      false) a chunk holding only whitespace is kept as an empty message;
      the corrected rule drops it. */
  method SplitMessage(text: string, dropBlank: bool) returns (messages: seq<string>)
    ensures messages == ChunksOf(text, dropBlank)
    ensures |text| <= MaxLen ==> messages == [text]
    ensures |text| > MaxLen ==> forall c :: c in messages ==> WellFormedChunk(c) && (dropBlank ==> c != "")
  {
    if |text| <= MaxLen {
      return [text];
    }
    var parts := Split(text, "\n");
    var current := "";
    messages := [];
    for i := 0 to |parts|
      invariant Pack(parts[..i], dropBlank) == Packing(messages, current)
    {
      var part := parts[i];
      assert parts[..i + 1][..i] == parts[..i];
      if |current| + |part| + 1 <= MaxLen {
        current := current + part + "\n";
      } else {
        if if dropBlank then Strip(current) != "" else current != "" {
          messages := messages + [Strip(current)];
        }
        current := part + "\n";
      }
    }
    assert parts[..|parts|] == parts;
    if if dropBlank then Strip(current) != "" else current != "" {
      messages := messages + [Strip(current)];
    }
    ChunksWellFormed(text, dropBlank);
  }

  // ---------------------------------------------------------------------------
  // send_telegram_message: sending

  /** One request to the Telegram API: the text and whether it asked for
      Markdown parsing. */
  datatype Post = Post(text: string, markdown: bool)

  /** The requests for a list of messages: each is posted with Markdown and,
      when that is refused, once more without. `markdownOk(i)` is the
      answer to the first request for message `i`. */
  function Posts(messages: seq<string>, markdownOk: nat -> bool): (r: seq<Post>)
    ensures |messages| <= |r| <= 2 * |messages|
  {
    if messages == [] then []
    else
      var i := |messages| - 1;
      Posts(messages[..i], markdownOk) + [Post(messages[i], true)]
      + (if markdownOk(i) then [] else [Post(messages[i], false)])
  }

  /** `send_telegram_message`: the bot token is read from the environment
      (`token`; a missing one raises KeyError before anything is sent), the
      text is split as written, and the result is true only when every
      message got through, with or without Markdown. Replies of the API are
      the oracles `markdownOk` and `plainOk`. */
  method SendTelegramMessage(token: Option<string>, text: string, markdownOk: nat -> bool, plainOk: nat -> bool)
    returns (r: Result<bool, PyError>, posts: seq<Post>, pauses: nat)
    ensures r.Err? <==> token.None?
    ensures r.Err? ==> r.error == KeyError && posts == [] && pauses == 0
    ensures r.Ok? ==> posts == Posts(ChunksOf(text, false), markdownOk)
    ensures r.Ok? ==> (r.value <==> forall i :: 0 <= i < |ChunksOf(text, false)| ==> markdownOk(i) || plainOk(i))
    ensures r.Ok? ==> pauses == if |ChunksOf(text, false)| > 0 then |ChunksOf(text, false)| - 1 else 0
  {
    if token.None? {
      return Err(KeyError), [], 0;
    }
    var messages := SplitMessage(text, false);
    var success;
    success, posts, pauses := SendMessages(messages, markdownOk, plainOk);
    r := Ok(success);
  }

  /** The sending loop: the messages are posted in order, with a pause of
      half a second between consecutive ones. */
  method SendMessages(messages: seq<string>, markdownOk: nat -> bool, plainOk: nat -> bool)
    returns (success: bool, posts: seq<Post>, pauses: nat)
    ensures posts == Posts(messages, markdownOk)
    ensures success <==> forall i :: 0 <= i < |messages| ==> markdownOk(i) || plainOk(i)
    ensures pauses == if |messages| > 0 then |messages| - 1 else 0
  {
    success := true;
    posts := [];
    pauses := 0;
    for i := 0 to |messages|
      invariant posts == Posts(messages[..i], markdownOk)
      invariant success <==> forall j :: 0 <= j < i ==> markdownOk(j) || plainOk(j)
      invariant pauses == if i == |messages| && i > 0 then i - 1 else i
    {
      assert messages[..i + 1][..i] == messages[..i];
      posts := posts + [Post(messages[i], true)];
      var ok := markdownOk(i);
      if !ok {
        posts := posts + [Post(messages[i], false)];
        ok := plainOk(i);
      }
      success := success && ok;
      if |messages| > 1 && i < |messages| - 1 {
        pauses := pauses + 1;
      }
    }
    assert messages[..|messages|] == messages;
  }

  // ---------------------------------------------------------------------------
  // is_commodity

  const Commodities: set<string> := {"silver", "gold"}

  /** `is_commodity`: the lower-cased symbol is a known commodity. */
  predicate IsCommodity(symbol: string)
  {
    Lower(symbol) in Commodities
  }

  /** The commodity test ignores case: a symbol and its upper-cased form
      agree, and "GOLD" and "Silver" are commodities. */
  lemma IsCommodityIgnoresCase(symbol: string)
    ensures IsCommodity(Upper(symbol)) == IsCommodity(symbol)
    ensures IsCommodity("GOLD") && IsCommodity("Silver")
  {
    LowerOfUpper(symbol);
    assert Lower("GOLD") == "gold";
    assert Lower("Silver") == "silver";
  }

  // ---------------------------------------------------------------------------
  // format_analyze_result

  /** The signal shown in the title. */
  datatype Label = LongLabel | ShortLabel | HoldLabel | IgnoreLabel

  /** `signal_map.get(signal_raw, HOLD)`. */
  function SignalLabel(raw: string): (l: Label)
    ensures l == LongLabel <==> raw == "LONG"
    ensures l == ShortLabel <==> raw == "SHORT"
    ensures l == IgnoreLabel <==> raw == "IGNORE"
    ensures raw !in {"LONG", "SHORT", "HOLD", "IGNORE"} ==> l == HoldLabel
  {
    if raw == "LONG" then LongLabel
    else if raw == "SHORT" then ShortLabel
    else if raw == "IGNORE" then IgnoreLabel
    else HoldLabel
  }

  /** The confidence shown: a bar of ten cells and the value, or a dash. */
  datatype Confidence = NoConfidence | Bar(cells: string, value: real)

  /** The confidence line: a dash for None, else `int(confidence * 10)`
      filled cells and the rest empty. A bool counts as 0 or 1; a string
      raises ValueError, any other value TypeError. */
  function ConfidenceText(confidence: Json): (r: Result<Confidence, PyError>)
    ensures confidence.JNull? ==> r == Ok(NoConfidence)
    ensures r.Err? <==> !confidence.JNull? && AsNumber(confidence).None?
    ensures r.Err? ==> r.error == (if confidence.JStr? then ValueError else TypeError)
    ensures r.Ok? && !confidence.JNull? ==> r.value.Bar? && r.value.value == AsNumber(confidence).value
  {
    if confidence.JNull? then Ok(NoConfidence)
    else
      match SignalExtractor.FormatNumber(confidence)
      case Err(e) => Err(e)
      case Ok(c) =>
        var bars := Dicts.TruncInt(c * 10.0);
        Ok(Bar(Cells(bars, 10), c))
  }

  /** For a confidence between 0 and 1 the bar has ten cells, and cell
      `i` is filled exactly when the confidence reaches `i + 1` tenths. */
  lemma ConfidenceBar(confidence: Json, c: real)
    requires AsNumber(confidence) == Some(c) && 0.0 <= c <= 1.0
    ensures ConfidenceText(confidence).Ok?
    ensures var cells := ConfidenceText(confidence).value.cells;
            |cells| == 10
            && forall i :: 0 <= i < 10 ==> (cells[i] == Filled <==> (i + 1) as real <= 10.0 * c)
  {
    var n := Dicts.TruncInt(c * 10.0);
    assert 0 <= n <= 10;
    CellsShape(n, 10);
  }

  /** The price shown: dollars and euros, dollars only, or a dash. */
  datatype Price = UsdEur(usd: real, eur: real) | UsdOnly(dollars: real) | NoPrice

  /** The price line: with no dollar price a euro price is not shown; each
      shown price must be a number (`:,.2f`). */
  function PriceText(usd: Json, eur: Json): (r: Result<Price, PyError>)
    ensures usd.JNull? ==> r == Ok(NoPrice)
    ensures r.Ok? && !usd.JNull? && !eur.JNull? ==>
              AsNumber(usd).Some? && AsNumber(eur).Some? && r.value == UsdEur(AsNumber(usd).value, AsNumber(eur).value)
    ensures r.Ok? && !usd.JNull? && eur.JNull? ==> AsNumber(usd).Some? && r.value == UsdOnly(AsNumber(usd).value)
    ensures r.Err? <==> !usd.JNull? && (AsNumber(usd).None? || (!eur.JNull? && AsNumber(eur).None?))
  {
    if usd.JNull? then Ok(NoPrice)
    else
      match SignalExtractor.FormatNumber(usd)
      case Err(e) => Err(e)
      case Ok(u) =>
        if eur.JNull? then Ok(UsdOnly(u))
        else
          match SignalExtractor.FormatNumber(eur)
          case Err(e) => Err(e)
          case Ok(v) => Ok(UsdEur(u, v))
  }

  /** The three knockout strategies, in the order they are listed. */
  datatype Tier = Conservative | Moderate | Aggressive

  const Tiers: seq<Tier> := [Conservative, Moderate, Aggressive]

  function TierKey(t: Tier): string
  {
    match t
    case Conservative => "conservative"
    case Moderate => "moderate"
    case Aggressive => "aggressive"
  }

  datatype Risk = LowRisk | MediumRisk | HighRisk

  /** `risk_labels.get(risk, medium)`: a list or dict cannot be a key
      (TypeError); any other unknown value reads as medium. */
  function RiskOf(risk: Json): (r: Result<Risk, PyError>)
    ensures r.Err? <==> risk.JArr? || risk.JObj?
    ensures r == Ok(LowRisk) <==> risk == JStr("low")
    ensures r == Ok(HighRisk) <==> risk == JStr("high")
  {
    match risk
    case JArr(_) => Err(TypeError)
    case JObj(_) => Err(TypeError)
    case JStr(s) =>
      if s == "low" then Ok(LowRisk) else if s == "high" then Ok(HighRisk) else Ok(MediumRisk)
    case _ => Ok(MediumRisk)
  }

  /** The horizons of the timeframes section, in order. */
  datatype Horizon = ShortTerm | MediumTerm | LongTerm

  const Horizons: seq<Horizon> := [ShortTerm, MediumTerm, LongTerm]

  function HorizonKey(h: Horizon): string
  {
    match h
    case ShortTerm => "short_term"
    case MediumTerm => "medium_term"
    case LongTerm => "long_term"
  }

  /** A line of the analysis reply. */
  datatype Line =
    | Title(titleLabel: Label, symbol: string)
    | NameLine(name: string)
    | PriceLine(price: Price)
    | ConfidenceLine(confidence: Confidence)
    | NoAssessment
    | StrategiesHeading(headingLabel: Label)
    | AlternativeHeading(rising: bool, direction: Json)
    | StrategyRow(tier: Tier, ko: real, distance: real, risk: Risk)
    | SupportHeading
    | ResistanceHeading
    | ZoneLine(level: real, description: Json)
    | AnalysisHeading
    | AnalysisText(text: string)
    | TimeframesHeading
    | TimeframeLine(horizon: Horizon, tfSignal: Option<string>)
    | ChartLink(symbol: string)

  /** A strategy's line: a missing strategy is an empty dict, a missing KO
      level or distance is 0 and a missing risk is medium; a strategy that
      is not a dict has no `get` (AttributeError). */
  function StrategyLine(strategies: map<string, Json>, t: Tier): (r: Result<Line, PyError>)
    ensures TierKey(t) !in strategies ==> r == Ok(StrategyRow(t, 0.0, 0.0, MediumRisk))
    ensures r.Ok? ==> r.value.StrategyRow? && r.value.tier == t
    ensures r.Err? ==> TierKey(t) in strategies
  {
    var strat := Get(strategies, TierKey(t), JObj(map[]));
    match strat
    case JObj(fields) =>
      (match RiskOf(Get(fields, "risk", JStr("medium")))
       case Err(e) => Err(e)
       case Ok(risk) =>
         match SignalExtractor.FormatNumber(Get(fields, "ko_level_usd", JNum(0.0)))
         case Err(e) => Err(e)
         case Ok(ko) =>
           match SignalExtractor.FormatNumber(Get(fields, "distance_pct", JNum(0.0)))
           case Err(e) => Err(e)
           case Ok(dist) => Ok(StrategyRow(t, ko, dist, risk)))
    case _ => Err(AttributeError)
  }

  /** The lines of the strategies from the `n`-th on. */
  function StrategyLinesFrom(strategies: map<string, Json>, n: nat): (r: Result<seq<Line>, PyError>)
    requires n <= |Tiers|
    ensures r.Ok? ==> |r.value| == |Tiers| - n
                      && forall i :: 0 <= i < |r.value| ==> r.value[i].StrategyRow? && r.value[i].tier == Tiers[n + i]
    decreases |Tiers| - n
  {
    if n == |Tiers| then Ok([])
    else
      match StrategyLine(strategies, Tiers[n])
      case Err(e) => Err(e)
      case Ok(line) =>
        match StrategyLinesFrom(strategies, n + 1)
        case Err(e) => Err(e)
        case Ok(lines) =>
          assert forall i :: 0 < i <= |lines| ==> ([line] + lines)[i] == lines[i - 1];
          Ok([line] + lines)
  }

  /** `_format_strategies`: one line per strategy, conservative first; a
      value that is not a dict has no `get`. */
  function StrategyLines(strategies: Json): (r: Result<seq<Line>, PyError>)
    ensures !strategies.JObj? ==> r == Err(AttributeError)
    ensures r.Ok? ==> |r.value| == 3 && forall i :: 0 <= i < 3 ==> r.value[i].StrategyRow? && r.value[i].tier == Tiers[i]
  {
    match strategies
    case JObj(fields) => StrategyLinesFrom(fields, 0)
    case _ => Err(AttributeError)
  }

  /** `_format_strategies` as the loop it is. */
  method FormatStrategies(strategies: Json) returns (r: Result<seq<Line>, PyError>)
    ensures r == StrategyLines(strategies)
  {
    if !strategies.JObj? {
      return Err(AttributeError);
    }
    var fields := strategies.fields;
    var lines: seq<Line> := [];
    PrependNothing(StrategyLinesFrom(fields, 0));
    for i := 0 to 3
      invariant StrategyLinesFrom(fields, 0) == Prepend(lines, StrategyLinesFrom(fields, i))
    {
      var line := StrategyLine(fields, Tiers[i]);
      if line.Err? {
        return Err(line.error);
      }
      PrependMore(lines, [line.value], StrategyLinesFrom(fields, i + 1));
      lines := lines + [line.value];
    }
    assert lines + [] == lines;
    r := Ok(lines);
  }

  /** The trade decision: `result.get("trade_decision") or {}`; one that is
      truthy but not a dict has no `get`. */
  function TradeOf(result: Json): (r: Result<map<string, Json>, PyError>)
    ensures !result.JObj? ==> r == Err(AttributeError)
    ensures result.JObj? && !Truthy(Get(result.fields, "trade_decision", JNull)) ==> r == Ok(map[])
  {
    match result
    case JObj(fields) =>
      var t := Get(fields, "trade_decision", JNull);
      if !Truthy(t) then Ok(map[])
      else if t.JObj? then Ok(t.fields)
      else Err(AttributeError)
    case _ => Err(AttributeError)
  }

  /** `trade.get("signal", "—").upper()`: a value that is not a string has
      no `upper`. */
  function SignalRaw(trade: map<string, Json>): (r: Result<string, PyError>)
    ensures "signal" !in trade ==> r == Ok("—")
    ensures r.Err? <==> !Get(trade, "signal", JNull).JStr? && "signal" in trade
    ensures r.Ok? && "signal" in trade ==> r.value == Upper(trade["signal"].s)
  {
    assert Upper("—") == "—";
    match Get(trade, "signal", JStr("—"))
    case JStr(s) => Ok(Upper(s))
    case _ => Err(AttributeError)
  }

  /** The opening lines: title, name, price and confidence, and the
      warning when the model could not assess the stock. */
  function Head(symbol: string, name: string, trade: map<string, Json>): (r: Result<seq<Line>, PyError>)
    ensures r.Ok? ==> SignalRaw(trade).Ok? && |r.value| >= 4
                      && r.value[0] == Title(SignalLabel(SignalRaw(trade).value), symbol)
                      && r.value[1] == NameLine(name)
    ensures r.Ok? ==> (NoAssessment in r.value <==> Truthy(Get(trade, "unable_to_assess", JBool(false))))
    ensures r.Ok? <==> SignalRaw(trade).Ok? && ConfidenceText(Get(trade, "confidence", JNull)).Ok?
                       && PriceText(Get(trade, "price_usd", JNull), Get(trade, "price_eur", JNull)).Ok?
  {
    match SignalRaw(trade)
    case Err(e) => Err(e)
    case Ok(raw) =>
      match ConfidenceText(Get(trade, "confidence", JNull))
      case Err(e) => Err(e)
      case Ok(conf) =>
        match PriceText(Get(trade, "price_usd", JNull), Get(trade, "price_eur", JNull))
        case Err(e) => Err(e)
        case Ok(price) =>
          Ok([Title(SignalLabel(raw), symbol), NameLine(name), PriceLine(price), ConfidenceLine(conf)]
             + (if Truthy(Get(trade, "unable_to_assess", JBool(false))) then [NoAssessment] else []))
  }

  /** The strategies section: shown only for a LONG or SHORT signal with
      strategies. */
  function StrategiesSection(trade: map<string, Json>, raw: string): (r: Result<seq<Line>, PyError>)
    ensures r.Ok? ==> (r.value != [] <==> raw in ["LONG", "SHORT"] && Truthy(Get(trade, "strategies", JNull)))
    ensures r.Ok? && r.value != [] ==> |r.value| == 4 && r.value[0] == StrategiesHeading(SignalLabel(raw))
  {
    var strategies := Get(trade, "strategies", JNull);
    if !(Truthy(strategies) && raw in ["LONG", "SHORT"]) then Ok([])
    else
      match StrategyLines(strategies)
      case Err(e) => Err(e)
      case Ok(lines) => Ok([StrategiesHeading(SignalLabel(raw))] + lines)
  }

  /** The alternative for a HOLD signal: shown only for HOLD with an
      alternative; the direction defaults to LONG and the strategies to an
      empty dict. */
  function AlternativeSection(trade: map<string, Json>, raw: string): (r: Result<seq<Line>, PyError>)
    ensures r.Ok? ==> (r.value != [] <==> raw == "HOLD" && Truthy(Get(trade, "hold_alternative", JNull)))
    ensures r.Ok? && r.value != [] ==> |r.value| == 4 && r.value[0].AlternativeHeading?
                                       && (r.value[0].rising <==> r.value[0].direction == JStr("LONG"))
    ensures r.Ok? && r.value != [] ==>
              Get(trade, "hold_alternative", JNull).JObj?
              && ("direction" !in Get(trade, "hold_alternative", JNull).fields ==>
                    r.value[0] == AlternativeHeading(true, JStr("LONG")))
  {
    var alt := Get(trade, "hold_alternative", JNull);
    if !(raw == "HOLD" && Truthy(alt)) then Ok([])
    else
      match alt
      case JObj(fields) =>
        var direction := Get(fields, "direction", JStr("LONG"));
        (match StrategyLines(Get(fields, "strategies", JObj(map[])))
         case Err(e) => Err(e)
         case Ok(lines) => Ok([AlternativeHeading(direction == JStr("LONG"), direction)] + lines))
      case _ => Err(AttributeError)
  }

  /** A zone's line: the level defaults to 0 and must be a number, the
      description defaults to "". */
  function ZoneRow(zone: Json): (r: Result<Line, PyError>)
    ensures r.Ok? ==> zone.JObj? && r.value.ZoneLine?
    ensures zone.JObj? && "level_usd" !in zone.fields ==> r.Ok? && r.value.level == 0.0
  {
    match zone
    case JObj(fields) =>
      (match SignalExtractor.FormatNumber(Get(fields, "level_usd", JNum(0.0)))
       case Err(e) => Err(e)
       case Ok(level) => Ok(ZoneLine(level, Get(fields, "description", JStr("")))))
    case _ => Err(AttributeError)
  }

  function ZoneRows(zones: seq<Json>): (r: Result<seq<Line>, PyError>)
    ensures r.Ok? ==> |r.value| == |zones| && forall i :: 0 <= i < |zones| ==> r.value[i].ZoneLine?
  {
    if zones == [] then Ok([])
    else
      match ZoneRow(zones[0])
      case Err(e) => Err(e)
      case Ok(line) =>
        match ZoneRows(zones[1..])
        case Err(e) => Err(e)
        case Ok(lines) => Ok([line] + lines)
  }

  /** A support or resistance section: at most the first four zones. The
      zones are sliced first (a dict or a number cannot be sliced:
      TypeError) and each zone must be a dict (a string's characters have
      no `get`). */
  function ZoneSection(zones: Json, heading: Line): (r: Result<seq<Line>, PyError>)
    ensures !Truthy(zones) ==> r == Ok([])
    ensures r.Ok? && r.value != [] ==> r.value[0] == heading && 2 <= |r.value| <= 5
                                       && forall i :: 1 <= i < |r.value| ==> r.value[i].ZoneLine?
    ensures r.Ok? && Truthy(zones) ==> zones.JArr? && |r.value| == 1 + Min(|zones.items|, 4)
  {
    if !Truthy(zones) then Ok([])
    else
      match zones
      case JArr(items) =>
        (match ZoneRows(Take(items, 4))
         case Err(e) => Err(e)
         case Ok(lines) => Ok([heading] + lines))
      case JStr(_) => Err(AttributeError)
      case _ => Err(TypeError)
  }

  function Min(a: nat, b: nat): nat
  {
    if a <= b then a else b
  }

  /** The analysis section: the first 2500 characters, and "..." when the
      text was longer. */
  function AnalysisSection(analysis: Json): (r: Result<seq<Line>, PyError>)
    ensures !Truthy(analysis) ==> r == Ok([])
    ensures r.Ok? && Truthy(analysis) ==>
              analysis.JStr? && |r.value| == 2 && r.value[0] == AnalysisHeading && r.value[1].AnalysisText?
              && (|analysis.s| <= 2500 ==> r.value[1].text == analysis.s)
              && (|analysis.s| > 2500 ==> |r.value[1].text| == 2503
                                          && r.value[1].text[..2500] == analysis.s[..2500]
                                          && r.value[1].text[2500..] == "...")
  {
    if !Truthy(analysis) then Ok([])
    else
      match analysis
      case JStr(s) =>
        var preview := Take(s, 2500) + (if |s| > 2500 then "..." else "");
        Ok([AnalysisHeading, AnalysisText(preview)])
      case _ => Err(TypeError)
  }

  /** `str(value).upper()` where it is modelled: strings, None and bools. */
  function TimeframeSignal(value: Json): Option<string>
  {
    match value
    case JStr(s) => Some(Upper(s))
    case JNull => Some("NONE")
    case JBool(b) => Some(if b then "TRUE" else "FALSE")
    case _ => None
  }

  /** A horizon's line: the value under its key, HOLD when missing. */
  function TimeframeRow(fields: map<string, Json>, h: Horizon): Line
  {
    TimeframeLine(h, TimeframeSignal(Get(fields, HorizonKey(h), JStr("HOLD"))))
  }

  /** The timeframes section: one line per horizon, a missing horizon
      reading as HOLD; a truthy value that is not a dict has no `get`. */
  function TimeframeSection(timeframes: Json): (r: Result<seq<Line>, PyError>)
    ensures !Truthy(timeframes) ==> r == Ok([])
    ensures Truthy(timeframes) && !timeframes.JObj? ==> r == Err(AttributeError)
    ensures Truthy(timeframes) && timeframes.JObj? ==>
              r.Ok? && |r.value| == 4 && r.value[0] == TimeframesHeading
              && forall i :: 0 <= i < 3 ==>
                   r.value[i + 1].TimeframeLine? && r.value[i + 1].horizon == Horizons[i]
                   && (HorizonKey(Horizons[i]) !in timeframes.fields ==> r.value[i + 1].tfSignal == Some("HOLD"))
  {
    if !Truthy(timeframes) then Ok([])
    else
      match timeframes
      case JObj(fields) =>
        assert Upper("HOLD") == "HOLD";
        Ok([TimeframesHeading, TimeframeRow(fields, ShortTerm), TimeframeRow(fields, MediumTerm),
            TimeframeRow(fields, LongTerm)])
      case _ => Err(AttributeError)
  }

  /** The reply's sections, in the order they appear. */
  datatype AnalyzeReply = AnalyzeReply(
    head: seq<Line>,
    strategies: seq<Line>,
    alternative: seq<Line>,
    support: seq<Line>,
    resistance: seq<Line>,
    analysis: seq<Line>,
    timeframes: seq<Line>,
    chart: Line)

  function ReplyLines(m: AnalyzeReply): seq<Line>
  {
    m.head + m.strategies + m.alternative + m.support + m.resistance + m.analysis + m.timeframes + [m.chart]
  }

  /** `format_analyze_result`, section by section; the first section that
      raises decides the error. */
  function AnalyzeResult(symbol: string, result: Json, name: string): (r: Result<AnalyzeReply, PyError>)
    ensures r.Ok? ==> TradeOf(result).Ok? && Head(symbol, name, TradeOf(result).value) == Ok(r.value.head)
    ensures r.Ok? ==> var trade := TradeOf(result).value;
                      var raw := SignalRaw(trade).value;
                      && StrategiesSection(trade, raw) == Ok(r.value.strategies)
                      && AlternativeSection(trade, raw) == Ok(r.value.alternative)
                      && ZoneSection(Get(trade, "support_zones", JNull), SupportHeading) == Ok(r.value.support)
                      && ZoneSection(Get(trade, "resistance_zones", JNull), ResistanceHeading) == Ok(r.value.resistance)
                      && AnalysisSection(Get(trade, "detailed_analysis", JNull)) == Ok(r.value.analysis)
                      && TimeframeSection(Get(trade, "timeframes", JNull)) == Ok(r.value.timeframes)
                      && r.value.chart == ChartLink(symbol)
  {
    match TradeOf(result)
    case Err(e) => Err(e)
    case Ok(trade) =>
      match Head(symbol, name, trade)
      case Err(e) => Err(e)
      case Ok(head) =>
        var raw := SignalRaw(trade).value;
        match StrategiesSection(trade, raw)
        case Err(e) => Err(e)
        case Ok(strategies) =>
          match AlternativeSection(trade, raw)
          case Err(e) => Err(e)
          case Ok(alternative) =>
            match ZoneSection(Get(trade, "support_zones", JNull), SupportHeading)
            case Err(e) => Err(e)
            case Ok(support) =>
              match ZoneSection(Get(trade, "resistance_zones", JNull), ResistanceHeading)
              case Err(e) => Err(e)
              case Ok(resistance) =>
                match AnalysisSection(Get(trade, "detailed_analysis", JNull))
                case Err(e) => Err(e)
                case Ok(analysis) =>
                  match TimeframeSection(Get(trade, "timeframes", JNull))
                  case Err(e) => Err(e)
                  case Ok(timeframes) =>
                    Ok(AnalyzeReply(head, strategies, alternative, support, resistance, analysis, timeframes,
                                    ChartLink(symbol)))
  }

  /** The strategies and the HOLD alternative never appear together: the
      first needs a LONG or SHORT signal and the second a HOLD signal, and
      an unknown signal is titled HOLD. */
  lemma ReplyGates(symbol: string, result: Json, name: string)
    requires AnalyzeResult(symbol, result, name).Ok?
    ensures var m := AnalyzeResult(symbol, result, name).value;
            var raw := SignalRaw(TradeOf(result).value).value;
            && !(m.strategies != [] && m.alternative != [])
            && (m.strategies != [] ==> m.head[0].titleLabel in {LongLabel, ShortLabel})
            && (m.alternative != [] ==> m.head[0].titleLabel == HoldLabel)
            && (raw !in {"LONG", "SHORT", "HOLD", "IGNORE"} ==> m.head[0].titleLabel == HoldLabel)
  {
  }

  /** The reply shows at most eight zones, and ends with the chart link. */
  lemma ReplyBounds(symbol: string, result: Json, name: string)
    requires AnalyzeResult(symbol, result, name).Ok?
    ensures var m := AnalyzeResult(symbol, result, name).value;
            |m.support| + |m.resistance| <= 10
            && ReplyLines(m)[|ReplyLines(m)| - 1] == ChartLink(symbol)
  {
  }

  /** Appends a zone section line by line. */
  method AppendZones(response: seq<Line>, zones: Json, heading: Line) returns (r: Result<seq<Line>, PyError>)
    ensures r == (match ZoneSection(zones, heading)
                  case Err(e) => Err(e)
                  case Ok(section) => Ok(response + section))
  {
    if !Truthy(zones) {
      assert response + [] == response;
      return Ok(response);
    }
    if !zones.JArr? {
      return Err(if zones.JStr? then AttributeError else TypeError);
    }
    var shown := Take(zones.items, 4);
    var lines: seq<Line> := [];
    assert shown[0..] == shown;
    PrependNothing(ZoneRows(shown));
    for i := 0 to |shown|
      invariant ZoneRows(shown) == Prepend(lines, ZoneRows(shown[i..]))
    {
      assert shown[i..][1..] == shown[i + 1..];
      var line := ZoneRow(shown[i]);
      if line.Err? {
        return Err(line.error);
      }
      PrependMore(lines, [line.value], ZoneRows(shown[i + 1..]));
      lines := lines + [line.value];
    }
    assert shown[|shown|..] == [] && lines + [] == lines;
    r := Ok(response + ([heading] + lines));
  }

  /** Appends the timeframes section line by line. */
  method AppendTimeframes(response: seq<Line>, timeframes: Json) returns (r: Result<seq<Line>, PyError>)
    ensures r == (match TimeframeSection(timeframes)
                  case Err(e) => Err(e)
                  case Ok(section) => Ok(response + section))
  {
    if !Truthy(timeframes) {
      assert response + [] == response;
      return Ok(response);
    }
    if !timeframes.JObj? {
      return Err(AttributeError);
    }
    var lines := TimeframeRows(timeframes.fields);
    assert TimeframeSection(timeframes) == Ok(lines);
    r := Ok(response + lines);
  }

  /** The loop over the three horizons, after the heading. */
  method TimeframeRows(fields: map<string, Json>) returns (lines: seq<Line>)
    ensures lines == [TimeframesHeading, TimeframeRow(fields, ShortTerm), TimeframeRow(fields, MediumTerm),
                      TimeframeRow(fields, LongTerm)]
  {
    ghost var want := [TimeframesHeading, TimeframeRow(fields, ShortTerm), TimeframeRow(fields, MediumTerm),
                       TimeframeRow(fields, LongTerm)];
    lines := [TimeframesHeading];
    for i := 0 to 3
      invariant lines == want[..i + 1]
    {
      assert want[i + 1] == TimeframeRow(fields, Horizons[i]);
      lines := lines + [TimeframeRow(fields, Horizons[i])];
      assert want[..i + 2] == want[..i + 1] + [want[i + 1]];
    }
    assert want[..4] == want;
  }

  /** `format_analyze_result`: the reply is built by appending section
      after section. */
  method FormatAnalyzeResult(symbol: string, result: Json, name: string) returns (r: Result<seq<Line>, PyError>)
    ensures r == (match AnalyzeResult(symbol, result, name)
                  case Err(e) => Err(e)
                  case Ok(m) => Ok(ReplyLines(m)))
  {
    var trade := TradeOf(result);
    if trade.Err? {
      return Err(trade.error);
    }
    var t := trade.value;
    var head := Head(symbol, name, t);
    if head.Err? {
      return Err(head.error);
    }
    var raw := SignalRaw(t).value;
    var strategies := AppendStrategies(head.value, t, raw);
    if strategies.Err? {
      return Err(strategies.error);
    }
    var alternative := AppendAlternative(strategies.value, t, raw);
    if alternative.Err? {
      return Err(alternative.error);
    }
    r := AppendTail(alternative.value, t, symbol);
  }

  /** The strategies block: only for LONG and SHORT with strategies. */
  method AppendStrategies(response: seq<Line>, t: map<string, Json>, raw: string) returns (r: Result<seq<Line>, PyError>)
    ensures r == Prepend(response, StrategiesSection(t, raw))
  {
    var strategies := Get(t, "strategies", JNull);
    if Truthy(strategies) && raw in ["LONG", "SHORT"] {
      var lines := FormatStrategies(strategies);
      if lines.Err? {
        return Err(lines.error);
      }
      return Ok(response + ([StrategiesHeading(SignalLabel(raw))] + lines.value));
    }
    assert response + [] == response;
    return Ok(response);
  }

  /** The HOLD alternative block: only for HOLD with an alternative. */
  method AppendAlternative(response: seq<Line>, t: map<string, Json>, raw: string) returns (r: Result<seq<Line>, PyError>)
    ensures r == Prepend(response, AlternativeSection(t, raw))
  {
    var alt := Get(t, "hold_alternative", JNull);
    if raw == "HOLD" && Truthy(alt) {
      if !alt.JObj? {
        return Err(AttributeError);
      }
      var direction := Get(alt.fields, "direction", JStr("LONG"));
      var lines := FormatStrategies(Get(alt.fields, "strategies", JObj(map[])));
      if lines.Err? {
        return Err(lines.error);
      }
      return Ok(response + ([AlternativeHeading(direction == JStr("LONG"), direction)] + lines.value));
    }
    assert response + [] == response;
    return Ok(response);
  }

  /** The sections after the alternative: zones, analysis, timeframes and
      the chart link. */
  method AppendTail(response: seq<Line>, trade: map<string, Json>, symbol: string) returns (r: Result<seq<Line>, PyError>)
    ensures r == (match ZoneSection(Get(trade, "support_zones", JNull), SupportHeading)
                  case Err(e) => Err(e)
                  case Ok(support) =>
                    match ZoneSection(Get(trade, "resistance_zones", JNull), ResistanceHeading)
                    case Err(e) => Err(e)
                    case Ok(resistance) =>
                      match AnalysisSection(Get(trade, "detailed_analysis", JNull))
                      case Err(e) => Err(e)
                      case Ok(analysis) =>
                        match TimeframeSection(Get(trade, "timeframes", JNull))
                        case Err(e) => Err(e)
                        case Ok(timeframes) =>
                          Ok(response + support + resistance + analysis + timeframes + [ChartLink(symbol)]))
  {
    var support := AppendZones(response, Get(trade, "support_zones", JNull), SupportHeading);
    if support.Err? {
      return Err(support.error);
    }
    var resistance := AppendZones(support.value, Get(trade, "resistance_zones", JNull), ResistanceHeading);
    if resistance.Err? {
      return Err(resistance.error);
    }
    var lines := resistance.value;
    var analysis := Get(trade, "detailed_analysis", JNull);
    if Truthy(analysis) {
      if !analysis.JStr? {
        return Err(TypeError);
      }
      var s := analysis.s;
      var preview := Take(s, 2500);
      if |s| > 2500 {
        preview := preview + "...";
      } else {
        assert preview + "" == preview;
      }
      lines := lines + [AnalysisHeading, AnalysisText(preview)];
    } else {
      assert lines + [] == lines;
    }
    assert AnalysisSection(analysis).Ok? && lines == resistance.value + AnalysisSection(analysis).value;
    var timeframes := AppendTimeframes(lines, Get(trade, "timeframes", JNull));
    if timeframes.Err? {
      return Err(timeframes.error);
    }
    r := Ok(timeframes.value + [ChartLink(symbol)]);
  }
}
