/** `src/analysis/signal_extractor.py`: turning the extraction model's reply
    into an `ExtractedSignal` (fence cleanup, decode, brace-span recovery, a
    fixed fallback and the per-key defaults), and the Telegram rendering of
    such a signal. The reply text and `json.loads` are parameters. */
module SignalExtractor {
  import opened Wrappers
  import opened JsonValue
  import opened Text
  import GeminiUtils

  /** Every field except `current_price` holds whatever the reply decoded
      to, since `data.get` performs no conversion. */
  datatype ExtractedSignal = ExtractedSignal(
    signalType: Json,
    actionDetail: Json,
    confidenceReasoning: Json,
    currentPrice: real,
    stopLoss: Json,
    stopLossReasoning: Json,
    exitTargets: Json,
    keyEvents: Json,
    exitConditions: Json,
    bullCase: Json,
    bearCase: Json,
    finalRecommendation: Json)

  // ---------------------------------------------------------------------------
  // Reply cleanup

  /** `re.sub(r'^```json?\n?', '', t)`: the anchored pattern needs "```jso",
      then takes an optional "n" and an optional newline. */
  function StripLeadingFence(t: string): (r: string)
    ensures StartsWith(t, "```jso") ==> |r| < |t| && r == t[|t| - |r|..]
    ensures !StartsWith(t, "```jso") ==> r == t
  {
    if StartsWith(t, "```jso") then
      var u := t[6..];
      var v := if StartsWith(u, "n") then u[1..] else u;
      if StartsWith(v, "\n") then v[1..] else v
    else t
  }

  /** `re.sub(r'\n?```$', '', t)`: `$` matches at the end or before a final
      newline, and the leftmost match takes the newline in front of the
      fence when there is one. */
  function StripTrailingFence(t: string): (r: string)
  {
    if EndsWith(t, "\n```") then t[..|t| - 4]
    else if EndsWith(t, "```") then t[..|t| - 3]
    else if EndsWith(t, "\n```\n") then t[..|t| - 5] + "\n"
    else if EndsWith(t, "```\n") then t[..|t| - 4] + "\n"
    else t
  }

  /** The reply after `.strip()` and, when it then starts with "```", the
      two substitutions. */
  function CleanResponse(reply: string): (r: string)
    ensures !StartsWith(Strip(reply), "```") ==> r == Strip(reply)
  {
    var t := Strip(reply);
    if StartsWith(t, "```") then StripTrailingFence(StripLeadingFence(t)) else t
  }

  /** A "```json" fence around any body is removed completely. */
  lemma JsonFenceRemoved(body: string)
    ensures CleanResponse("```json\n" + body + "\n```") == body
  {
    var s := "```json\n" + body + "\n```";
    assert s[0] == '`' && s[|s| - 1] == '`';
    StripNoSpaceAround(s);
    assert s == "```json\n" + (body + "\n```");
    OpeningJsonFence(body + "\n```");
    ClosingFence(body);
  }

  lemma OpeningJsonFence(rest: string)
    ensures StripLeadingFence("```json\n" + rest) == rest
  {
    var s := "```json\n" + rest;
    assert StartsWith(s, "```jso");
    var u := s[6..];
    assert u == "n\n" + rest;
    assert u[1..] == "\n" + rest;
    assert u[1..][1..] == rest;
  }

  lemma ClosingFence(body: string)
    ensures StripTrailingFence(body + "\n```") == body
  {
    var w := body + "\n```";
    assert EndsWith(w, "\n```");
    assert w[..|w| - 4] == body;
  }

  /** A bare "```" fence loses only its closing line: the pattern demands
      "```jso", so the opening "```" and its newline stay. */
  lemma BareFenceKept(body: string)
    ensures CleanResponse("```\n" + body + "\n```") == "```\n" + body
  {
    var s := "```\n" + body + "\n```";
    assert s[0] == '`' && s[|s| - 1] == '`';
    StripNoSpaceAround(s);
    assert StartsWith(s, "```");
    assert s[3] == '\n';
    assert !StartsWith(s, "```jso");
    assert EndsWith(s, "\n```");
    assert s[..|s| - 4] == "```\n" + body;
  }

  /** What the brace search finds behind the kept bare fence: the body
      itself, when it is an object text delimited by braces. */
  lemma BareFenceSpan(body: string)
    requires |body| >= 2 && body[0] == '{' && body[|body| - 1] == '}'
    ensures GeminiUtils.BraceSpan("```\n" + body) == Some(body)
  {
    var t := "```\n" + body;
    assert t[0] == '`' && t[1] == '`' && t[2] == '`' && t[3] == '\n' && t[4] == '{';
    assert FindChar(t, '{') == 4;
    assert t[|t| - 1] == '}';
    assert RFindChar(t, '}') == |t| - 1;
    assert t[4..|t|] == body;
  }

  // ---------------------------------------------------------------------------
  // Defaults

  /** The keys the extractor reads, with the default `data.get` falls back
      to for each. */
  function DefaultOf(key: string): Json
  {
    if key == "signal_type" then JStr("HOLD")
    else if key == "stop_loss" then JNull
    else if key in {"exit_targets", "key_events", "exit_conditions"} then JArr([])
    else JStr("")
  }

  const Keys: set<string> := {"signal_type", "action_detail", "confidence_reasoning", "stop_loss",
                              "stop_loss_reasoning", "exit_targets", "key_events", "exit_conditions",
                              "bull_case", "bear_case", "final_recommendation"}

  /** The signal field stored under a key. */
  function FieldOf(s: ExtractedSignal, key: string): Json
  {
    if key == "signal_type" then s.signalType
    else if key == "action_detail" then s.actionDetail
    else if key == "confidence_reasoning" then s.confidenceReasoning
    else if key == "stop_loss" then s.stopLoss
    else if key == "stop_loss_reasoning" then s.stopLossReasoning
    else if key == "exit_targets" then s.exitTargets
    else if key == "key_events" then s.keyEvents
    else if key == "exit_conditions" then s.exitConditions
    else if key == "bull_case" then s.bullCase
    else if key == "bear_case" then s.bearCase
    else s.finalRecommendation
  }

  /** The signal built from a decoded reply: a dict gives every known key's
      value or its default, with the caller's price; anything else has no
      `.get` and raises AttributeError. */
  function FromData(data: Json, currentPrice: real): (r: Result<ExtractedSignal, PyError>)
    ensures r.Ok? <==> data.JObj?
    ensures r.Err? ==> r.error == AttributeError
    ensures r.Ok? ==> r.value.currentPrice == currentPrice
  {
    match data
    case JObj(m) =>
      Ok(ExtractedSignal(
        Get(m, "signal_type", JStr("HOLD")),
        Get(m, "action_detail", JStr("")),
        Get(m, "confidence_reasoning", JStr("")),
        currentPrice,
        Get(m, "stop_loss", JNull),
        Get(m, "stop_loss_reasoning", JStr("")),
        Get(m, "exit_targets", JArr([])),
        Get(m, "key_events", JArr([])),
        Get(m, "exit_conditions", JArr([])),
        Get(m, "bull_case", JStr("")),
        Get(m, "bear_case", JStr("")),
        Get(m, "final_recommendation", JStr(""))))
    case _ => Err(AttributeError)
  }

  /** Each field of a built signal is the dict's value under its key, or
      that key's default. */
  lemma FromDataFields(data: Json, currentPrice: real)
    requires data.JObj?
    ensures forall k :: k in Keys ==>
              FieldOf(FromData(data, currentPrice).value, k) == Get(data.fields, k, DefaultOf(k))
  {
  }

  /** The dict a signal would be serialised to. */
  function ToFields(s: ExtractedSignal): map<string, Json>
  {
    map["signal_type" := s.signalType, "action_detail" := s.actionDetail,
        "confidence_reasoning" := s.confidenceReasoning, "stop_loss" := s.stopLoss,
        "stop_loss_reasoning" := s.stopLossReasoning, "exit_targets" := s.exitTargets,
        "key_events" := s.keyEvents, "exit_conditions" := s.exitConditions,
        "bull_case" := s.bullCase, "bear_case" := s.bearCase,
        "final_recommendation" := s.finalRecommendation]
  }

  /** A reply carrying every key reproduces the signal it was written from. */
  lemma FieldsRoundTrip(s: ExtractedSignal)
    ensures FromData(JObj(ToFields(s)), s.currentPrice) == Ok(s)
  {
  }

  /** An empty dict yields every default. */
  lemma EmptyDictDefaults(currentPrice: real)
    ensures FromData(JObj(map[]), currentPrice)
            == Ok(ExtractedSignal(JStr("HOLD"), JStr(""), JStr(""), currentPrice, JNull, JStr(""),
                                  JArr([]), JArr([]), JArr([]), JStr(""), JStr(""), JStr("")))
  {
  }

  /** Keys the extractor does not read change nothing. */
  lemma UnknownKeyIgnored(m: map<string, Json>, key: string, v: Json, currentPrice: real)
    requires key !in Keys
    ensures FromData(JObj(m[key := v]), currentPrice) == FromData(JObj(m), currentPrice)
  {
    var r1 := FromData(JObj(m[key := v]), currentPrice);
    var r2 := FromData(JObj(m), currentPrice);
    FromDataFields(JObj(m[key := v]), currentPrice);
    FromDataFields(JObj(m), currentPrice);
    forall k | k in Keys ensures FieldOf(r1.value, k) == FieldOf(r2.value, k) {
      assert k != key;
    }
    assert FieldOf(r1.value, "signal_type") == FieldOf(r2.value, "signal_type");
    assert FieldOf(r1.value, "action_detail") == FieldOf(r2.value, "action_detail");
    assert FieldOf(r1.value, "confidence_reasoning") == FieldOf(r2.value, "confidence_reasoning");
    assert FieldOf(r1.value, "stop_loss") == FieldOf(r2.value, "stop_loss");
    assert FieldOf(r1.value, "stop_loss_reasoning") == FieldOf(r2.value, "stop_loss_reasoning");
    assert FieldOf(r1.value, "exit_targets") == FieldOf(r2.value, "exit_targets");
    assert FieldOf(r1.value, "key_events") == FieldOf(r2.value, "key_events");
    assert FieldOf(r1.value, "exit_conditions") == FieldOf(r2.value, "exit_conditions");
    assert FieldOf(r1.value, "bull_case") == FieldOf(r2.value, "bull_case");
    assert FieldOf(r1.value, "bear_case") == FieldOf(r2.value, "bear_case");
    assert FieldOf(r1.value, "final_recommendation") == FieldOf(r2.value, "final_recommendation");
  }

  /** The minimal signal returned when the reply holds no brace span. */
  function Fallback(currentPrice: real): ExtractedSignal
  {
    ExtractedSignal(
      JStr("HOLD"),
      JStr("Unable to parse recommendation - review manually"),
      JStr("Parsing error"),
      currentPrice,
      JNull,
      JStr("Not extracted"),
      JArr([]),
      JArr([]),
      JArr([]),
      JStr("See full analysis"),
      JStr("See full analysis"),
      JStr("Manual review required"))
  }

  // ---------------------------------------------------------------------------
  // The extraction

  /** The outcome of `extract_signal_with_claude` for a reply: the cleaned
      text decoded whole, else its brace span decoded (a decode error there
      propagates as ValueError), else the fallback. */
  function Extract(decode: string -> Option<Json>, reply: string, currentPrice: real): (r: Result<ExtractedSignal, PyError>)
    ensures var t := CleanResponse(reply);
            decode(t).Some? ==> r == FromData(decode(t).value, currentPrice)
    ensures var t := CleanResponse(reply);
            decode(t).None? && GeminiUtils.BraceSpan(t).None? ==> r == Ok(Fallback(currentPrice))
    ensures var t := CleanResponse(reply);
            decode(t).None? && GeminiUtils.BraceSpan(t).Some? ==>
              r == (match decode(GeminiUtils.BraceSpan(t).value)
                    case None => Err(ValueError)
                    case Some(d) => FromData(d, currentPrice))
    ensures r.Ok? ==> r.value.currentPrice == currentPrice
  {
    var t := CleanResponse(reply);
    match decode(t)
    case Some(d) => FromData(d, currentPrice)
    case None =>
      match GeminiUtils.BraceSpan(t)
      case None => Ok(Fallback(currentPrice))
      case Some(span) =>
        match decode(span)
        case None => Err(ValueError)
        case Some(d) => FromData(d, currentPrice)
  }

  /** `extract_signal_with_claude` after the backend call: the text is
      reassigned step by step as in the source. */
  method ExtractSignalWithClaude(decode: string -> Option<Json>, reply: string, currentPrice: real)
    returns (r: Result<ExtractedSignal, PyError>)
    ensures r == Extract(decode, reply, currentPrice)
  {
    var responseText := Strip(reply);
    if StartsWith(responseText, "```") {
      responseText := StripLeadingFence(responseText);
      responseText := StripTrailingFence(responseText);
    }
    var data := decode(responseText);
    if data.None? {
      var jsonMatch := GeminiUtils.BraceSpan(responseText);
      if jsonMatch.Some? {
        data := decode(jsonMatch.value);
        if data.None? {
          return Err(ValueError);
        }
      } else {
        return Ok(Fallback(currentPrice));
      }
    }
    r := FromData(data.value, currentPrice);
  }

  /** A reply in a "```json" fence is read from its body. */
  lemma JsonFencedReply(decode: string -> Option<Json>, body: string, m: map<string, Json>, currentPrice: real)
    requires decode(body) == Some(JObj(m))
    ensures Extract(decode, "```json\n" + body + "\n```", currentPrice) == FromData(JObj(m), currentPrice)
  {
    JsonFenceRemoved(body);
  }

  /** A reply in a bare "```" fence, which a JSON decoder rejects after
      cleanup, is still read from its body through the brace span. */
  lemma BareFencedReply(decode: string -> Option<Json>, body: string, m: map<string, Json>, currentPrice: real)
    requires |body| >= 2 && body[0] == '{' && body[|body| - 1] == '}'
    requires decode("```\n" + body) == None && decode(body) == Some(JObj(m))
    ensures Extract(decode, "```\n" + body + "\n```", currentPrice) == FromData(JObj(m), currentPrice)
  {
    BareFenceKept(body);
    BareFenceSpan(body);
  }

  /** A reply with no decodable text and no brace yields the fallback. */
  lemma BracelessReply(decode: string -> Option<Json>, reply: string, currentPrice: real)
    requires decode(CleanResponse(reply)) == None && '}' !in CleanResponse(reply)
    ensures Extract(decode, reply, currentPrice) == Ok(Fallback(currentPrice))
  {
    var t := CleanResponse(reply);
    forall i, j | 0 <= i < j < |t| && t[i] == '{' ensures t[j] != '}' {
      assert t[j] in t;
    }
  }

  // ---------------------------------------------------------------------------
  // format_signal_for_telegram

  /** The lines of the message; the emoji and German labels are not
      modelled, only what each line shows. */
  datatype Line =
    | Header(signalType: Json, symbol: string, name: string)
    | Blank
    | PriceLine(price: real)
    | ActionLine(detail: Json)
    | StopLine(stop: real, pct: real)
    | TargetsHeading
    | TargetLine(price: real, action: Json)
    | EventsHeading
    | ConditionsHeading
    | Bullet(item: Json)
    | RecommendationHeading
    | RecommendationText(text: Json)

  /** A value formatted with `:.2f`: numbers and booleans pass, a string
      has no 'f' format (ValueError), anything else raises TypeError. */
  function FormatNumber(j: Json): (r: Result<real, PyError>)
    ensures r.Ok? <==> AsNumber(j).Some?
    ensures r.Ok? ==> r.value == AsNumber(j).value
    ensures r.Err? ==> r.error == (if j.JStr? then ValueError else TypeError)
  {
    match j
    case JNum(n) => Ok(n)
    case JBool(b) => Ok(if b then 1.0 else 0.0)
    case JStr(_) => Err(ValueError)
    case _ => Err(TypeError)
  }

  /** `value[:3]`: the first three items of a list or characters of a
      string; other values cannot be sliced. */
  function FirstThree(j: Json): (r: Result<seq<Json>, PyError>)
    ensures r.Ok? <==> j.JArr? || j.JStr?
    ensures r.Ok? ==> |r.value| <= 3
    ensures j.JArr? ==> r == Ok(Take(j.items, 3))
    ensures j.JStr? ==> r.Ok? && |r.value| <= |j.s| && forall k :: 0 <= k < |r.value| ==> r.value[k] == JStr([j.s[k]])
  {
    match j
    case JArr(items) => Ok(Take(items, 3))
    case JStr(s) => Ok(seq(if |s| < 3 then |s| else 3, k requires 0 <= k < |s| => JStr([s[k]])))
    case _ => Err(TypeError)
  }

  /** The stop-loss move in percent of the price, or 0 for a zero price;
      the subtraction needs a number. */
  function StopPct(stop: Json, price: real): (r: Result<real, PyError>)
    ensures price == 0.0 ==> r == Ok(0.0)
    ensures price != 0.0 && AsNumber(stop).None? ==> r == Err(TypeError)
    ensures price != 0.0 && AsNumber(stop).Some? ==>
              r.Ok? && r.value * price == (AsNumber(stop).value - price) * 100.0
  {
    if price == 0.0 then Ok(0.0)
    else
      match AsNumber(stop)
      case None => Err(TypeError)
      case Some(v) =>
        Scale(v - price, price);
        Ok((v - price) / price * 100.0)
  }

  lemma Scale(diff: real, price: real)
    requires price != 0.0
    ensures diff / price * 100.0 * price == diff * 100.0
  {
    assert diff / price * price == diff;
  }

  /** The line a target item gives: a dict with a truthy "price" shows that
      price (which must format as a number) and its "action". */
  function TargetItem(t: Json): (r: Result<seq<Line>, PyError>)
    ensures r.Ok? ==> |r.value| <= 1
    ensures r.Ok? && |r.value| == 1 ==>
              t.JObj? && "price" in t.fields && Truthy(t.fields["price"]) && AsNumber(t.fields["price"]).Some?
              && r.value[0] == TargetLine(AsNumber(t.fields["price"]).value, Get(t.fields, "action", JStr("")))
    ensures !(t.JObj? && Truthy(Get(t.fields, "price", JNull))) ==> r == Ok([])
  {
    if t.JObj? && Truthy(Get(t.fields, "price", JNull)) then
      match FormatNumber(t.fields["price"])
      case Err(e) => Err(e)
      case Ok(p) => Ok([TargetLine(p, Get(t.fields, "action", JStr("")))])
    else Ok([])
  }

  /** The target lines of a list of items, in order; the first error stops
      the rendering. */
  function TargetLines(items: seq<Json>): (r: Result<seq<Line>, PyError>)
    ensures r.Ok? ==> |r.value| <= |items|
    ensures r.Ok? ==> forall k :: 0 <= k < |r.value| ==> r.value[k].TargetLine? && r.value[k].price != 0.0
  {
    if items == [] then Ok([])
    else
      match TargetLines(items[..|items| - 1])
      case Err(e) => Err(e)
      case Ok(front) =>
        match TargetItem(items[|items| - 1])
        case Err(e) => Err(e)
        case Ok(last) =>
          TargetItemPrice(items[|items| - 1]);
          Ok(front + last)
  }

  lemma TargetItemPrice(t: Json)
    ensures TargetItem(t).Ok? && |TargetItem(t).value| == 1 ==> TargetItem(t).value[0].price != 0.0
  {
    if TargetItem(t).Ok? && |TargetItem(t).value| == 1 {
      var p := t.fields["price"];
      assert Truthy(p);
      match p
      case JNum(n) =>
      case JBool(b) =>
      case _ =>
    }
  }

  /** The opening lines: header, blank, the price when it is non-zero
      (else an empty line) and the action. */
  function Opening(signal: ExtractedSignal, symbol: string, name: string): seq<Line>
  {
    [Header(signal.signalType, symbol, name), Blank,
     if signal.currentPrice != 0.0 then PriceLine(signal.currentPrice) else Blank,
     ActionLine(signal.actionDetail)]
  }

  /** The stop-loss line, present only for a truthy stop. */
  function StopSection(signal: ExtractedSignal): (r: Result<seq<Line>, PyError>)
    ensures r.Ok? ==> |r.value| <= 1 && forall l :: l in r.value ==> l.StopLine?
  {
    if !Truthy(signal.stopLoss) then Ok([])
    else
      match StopPct(signal.stopLoss, signal.currentPrice)
      case Err(e) => Err(e)
      case Ok(pct) =>
        match FormatNumber(signal.stopLoss)
        case Err(e) => Err(e)
        case Ok(stop) => Ok([StopLine(stop, pct)])
  }

  /** The exit-target section, present only for truthy targets. */
  function TargetSection(signal: ExtractedSignal): (r: Result<seq<Line>, PyError>)
    ensures r.Ok? ==> forall l :: l in r.value ==> l in {Blank, TargetsHeading} || (l.TargetLine? && l.price != 0.0)
    ensures r.Ok? ==> !Truthy(signal.exitTargets) ==> r.value == []
    ensures r.Ok? ==> |r.value| <= 5
  {
    if !Truthy(signal.exitTargets) then Ok([])
    else
      match FirstThree(signal.exitTargets)
      case Err(e) => Err(e)
      case Ok(first) =>
        match TargetLines(first)
        case Err(e) => Err(e)
        case Ok(shown) =>
          assert forall l :: l in shown ==> l.TargetLine? && l.price != 0.0 by {
            forall l | l in shown ensures l.TargetLine? && l.price != 0.0 {
              var k :| 0 <= k < |shown| && shown[k] == l;
            }
          }
          Ok([Blank, TargetsHeading] + shown)
  }

  function Bullets(items: seq<Json>): (r: seq<Line>)
    ensures |r| == |items| && forall k :: 0 <= k < |items| ==> r[k] == Bullet(items[k])
  {
    seq(|items|, k requires 0 <= k < |items| => Bullet(items[k]))
  }

  /** A key-events or exit-conditions section, present only for a truthy
      value. */
  function ListSection(value: Json, heading: Line): (r: Result<seq<Line>, PyError>)
    ensures r.Ok? ==> forall l :: l in r.value ==> l == Blank || l == heading || l.Bullet?
  {
    if !Truthy(value) then Ok([])
    else
      match FirstThree(value)
      case Err(e) => Err(e)
      case Ok(items) => Ok([Blank, heading] + Bullets(items))
  }

  function RecommendationSection(signal: ExtractedSignal): (r: seq<Line>)
    ensures Truthy(signal.finalRecommendation) <==> r != []
    ensures r != [] ==> r[|r| - 1] == RecommendationText(signal.finalRecommendation)
    ensures forall l :: l in r ==> !l.TargetLine? && !l.StopLine?
  {
    if Truthy(signal.finalRecommendation)
    then [Blank, RecommendationHeading, RecommendationText(signal.finalRecommendation)]
    else []
  }

  /** A value the emoji dict's `.get` can look up: lists and dicts are
      unhashable and raise TypeError. */
  predicate Hashable(j: Json)
  {
    !j.JArr? && !j.JObj?
  }

  /** The closing `"\n".join` takes the recommendation itself as a line,
      so a truthy recommendation that is not a string raises TypeError. */
  predicate Joinable(signal: ExtractedSignal)
  {
    Truthy(signal.finalRecommendation) ==> signal.finalRecommendation.JStr?
  }

  /** The message lines: the opening, then each optional section in the
      source's order; the first error raised stops the rendering. */
  function Render(signal: ExtractedSignal, symbol: string, name: string): (r: Result<seq<Line>, PyError>)
    ensures r.Ok? ==> |r.value| >= 4 && r.value[..4] == Opening(signal, symbol, name)
    ensures Truthy(signal.stopLoss) && AsNumber(signal.stopLoss).None? ==> r.Err?
    ensures !Hashable(signal.signalType) ==> r == Err(TypeError)
    ensures r.Ok? <==> Hashable(signal.signalType)
                       && StopSection(signal).Ok? && TargetSection(signal).Ok?
                       && ListSection(signal.keyEvents, EventsHeading).Ok?
                       && ListSection(signal.exitConditions, ConditionsHeading).Ok?
                       && Joinable(signal)
    ensures (Hashable(signal.signalType) && StopSection(signal).Ok? && TargetSection(signal).Ok?
             && ListSection(signal.keyEvents, EventsHeading).Ok?
             && ListSection(signal.exitConditions, ConditionsHeading).Ok?
             && !Joinable(signal)) ==> r == Err(TypeError)
    ensures r.Ok? ==> r.value == Opening(signal, symbol, name) + StopSection(signal).value
                                 + TargetSection(signal).value
                                 + ListSection(signal.keyEvents, EventsHeading).value
                                 + ListSection(signal.exitConditions, ConditionsHeading).value
                                 + RecommendationSection(signal)
  {
    if !Hashable(signal.signalType) then Err(TypeError)
    else
    match StopSection(signal)
    case Err(e) => Err(e)
    case Ok(stop) =>
      match TargetSection(signal)
      case Err(e) => Err(e)
      case Ok(targets) =>
        match ListSection(signal.keyEvents, EventsHeading)
        case Err(e) => Err(e)
        case Ok(events) =>
          match ListSection(signal.exitConditions, ConditionsHeading)
          case Err(e) => Err(e)
          case Ok(conditions) =>
            if !Joinable(signal) then Err(TypeError)
            else
            var lines := Opening(signal, symbol, name) + stop + targets + events + conditions
                         + RecommendationSection(signal);
            assert lines[..4] == Opening(signal, symbol, name);
            Ok(lines)
  }

  /** `format_signal_for_telegram`: the list of lines (joined by "\n" in the
      source) built by successive appends. */
  method FormatSignalForTelegram(signal: ExtractedSignal, symbol: string, name: string)
    returns (r: Result<seq<Line>, PyError>)
    ensures r == Render(signal, symbol, name)
  {
    if !Hashable(signal.signalType) {
      return Err(TypeError);
    }
    var lines := Opening(signal, symbol, name);
    if Truthy(signal.stopLoss) {
      var pct := StopPct(signal.stopLoss, signal.currentPrice);
      if pct.Err? {
        assert StopSection(signal) == Err(pct.error);
        return Err(pct.error);
      }
      var stop := FormatNumber(signal.stopLoss);
      if stop.Err? {
        assert StopSection(signal) == Err(stop.error);
        return Err(stop.error);
      }
      lines := lines + [StopLine(stop.value, pct.value)];
    }
    assert StopSection(signal).Ok? && lines == Opening(signal, symbol, name) + StopSection(signal).value;
    if Truthy(signal.exitTargets) {
      lines := lines + [Blank, TargetsHeading];
      var first := FirstThree(signal.exitTargets);
      if first.Err? {
        assert TargetSection(signal) == Err(first.error);
        return Err(first.error);
      }
      var shown := TargetLines(first.value);
      if shown.Err? {
        assert TargetSection(signal) == Err(shown.error);
        return Err(shown.error);
      }
      lines := lines + shown.value;
    }
    assert TargetSection(signal).Ok?
           && lines == Opening(signal, symbol, name) + StopSection(signal).value + TargetSection(signal).value;
    var events := AppendList(lines, signal.keyEvents, EventsHeading);
    if events.Err? {
      assert ListSection(signal.keyEvents, EventsHeading) == Err(events.error);
      return Err(events.error);
    }
    lines := events.value;
    var conditions := AppendList(lines, signal.exitConditions, ConditionsHeading);
    if conditions.Err? {
      assert ListSection(signal.exitConditions, ConditionsHeading) == Err(conditions.error);
      return Err(conditions.error);
    }
    lines := conditions.value;
    if Truthy(signal.finalRecommendation) {
      if !signal.finalRecommendation.JStr? {
        return Err(TypeError);
      }
      lines := lines + [Blank, RecommendationHeading, RecommendationText(signal.finalRecommendation)];
    } else {
      assert lines + [] == lines;
    }
    r := Ok(lines);
  }

  /** Appends a list section item by item. */
  method AppendList(lines: seq<Line>, value: Json, heading: Line) returns (r: Result<seq<Line>, PyError>)
    ensures r == (match ListSection(value, heading)
                  case Err(e) => Err(e)
                  case Ok(section) => Ok(lines + section))
  {
    if !Truthy(value) {
      assert ListSection(value, heading) == Ok([]);
      assert lines + [] == lines;
      return Ok(lines);
    }
    var items := FirstThree(value);
    if items.Err? {
      assert ListSection(value, heading) == Err(items.error);
      return Err(items.error);
    }
    var out := lines + [Blank, heading];
    var i := 0;
    while i < |items.value|
      invariant 0 <= i <= |items.value|
      invariant out == lines + [Blank, heading] + Bullets(items.value[..i])
    {
      assert Bullets(items.value[..i + 1]) == Bullets(items.value[..i]) + [Bullet(items.value[i])];
      out := out + [Bullet(items.value[i])];
      i := i + 1;
    }
    assert items.value[..i] == items.value;
    assert ListSection(value, heading) == Ok([Blank, heading] + Bullets(items.value));
    assert out == lines + ([Blank, heading] + Bullets(items.value));
    r := Ok(out);
  }

  /** The target lines of a message. */
  function Targets(lines: seq<Line>): (r: seq<Line>)
    ensures |r| <= |lines|
    ensures forall l :: l in r ==> l in lines && l.TargetLine?
  {
    if lines == [] then []
    else Targets(lines[..|lines| - 1]) + (if lines[|lines| - 1].TargetLine? then [lines[|lines| - 1]] else [])
  }

  lemma {:induction false} TargetsAppend(a: seq<Line>, b: seq<Line>)
    ensures Targets(a + b) == Targets(a) + Targets(b)
  {
    if b != [] {
      TargetsAppend(a, b[..|b| - 1]);
      assert (a + b)[..|a + b| - 1] == a + b[..|b| - 1];
    } else {
      assert a + b == a;
    }
  }

  lemma {:induction false} TargetsNone(ls: seq<Line>)
    requires forall l :: l in ls ==> !l.TargetLine?
    ensures Targets(ls) == []
  {
    if ls != [] {
      assert forall l :: l in ls[..|ls| - 1] ==> l in ls;
      TargetsNone(ls[..|ls| - 1]);
    }
  }

  /** At most three target lines are shown, each with a non-zero price, and
      none at all without truthy exit targets. */
  lemma RenderTargets(signal: ExtractedSignal, symbol: string, name: string)
    requires Render(signal, symbol, name).Ok?
    ensures var ts := Targets(Render(signal, symbol, name).value);
            |ts| <= 3 && forall l :: l in ts ==> l.price != 0.0
    ensures !Truthy(signal.exitTargets) ==> Targets(Render(signal, symbol, name).value) == []
  {
    var head := Opening(signal, symbol, name) + StopSection(signal).value;
    var tail := ListSection(signal.keyEvents, EventsHeading).value
                + ListSection(signal.exitConditions, ConditionsHeading).value + RecommendationSection(signal);
    RenderAroundTargets(signal, symbol, name);
    TargetPlacement(head, TargetSection(signal).value, tail);
    SectionTargets(signal);
  }

  /** A rendered message is the target section between a head and a tail
      that hold no target line. */
  lemma RenderAroundTargets(signal: ExtractedSignal, symbol: string, name: string)
    requires Render(signal, symbol, name).Ok?
    ensures var head := Opening(signal, symbol, name) + StopSection(signal).value;
            var tail := ListSection(signal.keyEvents, EventsHeading).value
                        + ListSection(signal.exitConditions, ConditionsHeading).value + RecommendationSection(signal);
            && Render(signal, symbol, name).value == head + TargetSection(signal).value + tail
            && (forall l :: l in head ==> !l.TargetLine?)
            && (forall l :: l in tail ==> !l.TargetLine?)
  {
    var e := ListSection(signal.keyEvents, EventsHeading).value;
    var c := ListSection(signal.exitConditions, ConditionsHeading).value;
    var m := RecommendationSection(signal);
    var head := Opening(signal, symbol, name) + StopSection(signal).value;
    var t := TargetSection(signal).value;
    ConcatTail(head, t, e, c, m);
    NoTargetIn(Opening(signal, symbol, name), StopSection(signal).value);
    NoTargetIn(e, c);
    NoTargetIn(e + c, m);
  }

  lemma ConcatTail(head: seq<Line>, t: seq<Line>, e: seq<Line>, c: seq<Line>, m: seq<Line>)
    ensures head + t + e + c + m == head + t + (e + c + m)
  {
  }

  lemma NoTargetIn(a: seq<Line>, b: seq<Line>)
    requires forall l :: l in a ==> !l.TargetLine?
    requires forall l :: l in b ==> !l.TargetLine?
    ensures forall l :: l in a + b ==> !l.TargetLine?
  {
  }

  /** The target section holds at most three target lines, each with a
      non-zero price, and none without truthy exit targets. */
  lemma SectionTargets(signal: ExtractedSignal)
    requires TargetSection(signal).Ok?
    ensures var ts := Targets(TargetSection(signal).value);
            |ts| <= 3 && (forall l :: l in ts ==> l.price != 0.0)
            && (!Truthy(signal.exitTargets) ==> ts == [])
  {
    if Truthy(signal.exitTargets) {
      var first := FirstThree(signal.exitTargets).value;
      var shown := TargetLines(first).value;
      assert TargetSection(signal).value == [Blank, TargetsHeading] + shown;
      assert |shown| <= 3;
      TargetsAppend([Blank, TargetsHeading], shown);
      TargetsNone([Blank, TargetsHeading]);
      TargetsAll(shown);
    } else {
      TargetsNone([]);
    }
  }

  lemma TargetPlacement(head: seq<Line>, targets: seq<Line>, tail: seq<Line>)
    requires forall l :: l in head ==> !l.TargetLine?
    requires forall l :: l in tail ==> !l.TargetLine?
    ensures Targets(head + targets + tail) == Targets(targets)
  {
    TargetsAppend(head + targets, tail);
    TargetsAppend(head, targets);
    TargetsNone(head);
    TargetsNone(tail);
  }

  lemma {:induction false} TargetsAll(ls: seq<Line>)
    requires forall k :: 0 <= k < |ls| ==> ls[k].TargetLine?
    ensures Targets(ls) == ls
  {
    if ls != [] {
      TargetsAll(ls[..|ls| - 1]);
      SnocSeq(ls);
    }
  }

  /** The stop line follows the opening exactly for a truthy stop, and
      shows the stop with its percentage move from the price. */
  lemma RenderStop(signal: ExtractedSignal, symbol: string, name: string)
    requires Render(signal, symbol, name).Ok?
    ensures var lines := Render(signal, symbol, name).value;
            Truthy(signal.stopLoss) ==>
              |lines| > 4 && lines[4].StopLine? && AsNumber(signal.stopLoss).Some?
              && lines[4].stop == AsNumber(signal.stopLoss).value
              && (signal.currentPrice == 0.0 ==> lines[4].pct == 0.0)
              && (signal.currentPrice != 0.0 ==>
                    lines[4].pct * signal.currentPrice == (lines[4].stop - signal.currentPrice) * 100.0)
    ensures var lines := Render(signal, symbol, name).value;
            !Truthy(signal.stopLoss) ==> forall l :: l in lines ==> !l.StopLine?
  {
    var rest := TargetSection(signal).value + ListSection(signal.keyEvents, EventsHeading).value
                + ListSection(signal.exitConditions, ConditionsHeading).value + RecommendationSection(signal);
    StopPlacement(Opening(signal, symbol, name), StopSection(signal).value, rest);
  }

  lemma StopPlacement(opening: seq<Line>, stop: seq<Line>, rest: seq<Line>)
    requires |opening| == 4 && forall l :: l in opening ==> !l.StopLine?
    requires forall l :: l in stop ==> l.StopLine?
    requires forall l :: l in rest ==> !l.StopLine?
    ensures stop != [] ==> (opening + stop + rest)[4] == stop[0]
    ensures stop == [] ==> forall l :: l in opening + stop + rest ==> !l.StopLine?
  {
  }

  /** The recommendation text is the last line exactly when it is truthy. */
  lemma RenderRecommendation(signal: ExtractedSignal, symbol: string, name: string)
    requires Render(signal, symbol, name).Ok?
    ensures var lines := Render(signal, symbol, name).value;
            Truthy(signal.finalRecommendation) <==> lines[|lines| - 1] == RecommendationText(signal.finalRecommendation)
  {
    var lines := Render(signal, symbol, name).value;
    var m := RecommendationSection(signal);
    var front := Opening(signal, symbol, name) + StopSection(signal).value + TargetSection(signal).value
                 + ListSection(signal.keyEvents, EventsHeading).value
                 + ListSection(signal.exitConditions, ConditionsHeading).value;
    RenderBeforeRecommendation(signal, symbol, name);
    if m == [] {
      assert lines == front + [];
      assert front[|front| - 1] in front;
    } else {
      assert lines[|lines| - 1] == m[|m| - 1];
    }
  }

  /** The lines before the recommendation section hold no recommendation
      text, and there are some: the opening. */
  lemma RenderBeforeRecommendation(signal: ExtractedSignal, symbol: string, name: string)
    requires Render(signal, symbol, name).Ok?
    ensures var front := Opening(signal, symbol, name) + StopSection(signal).value + TargetSection(signal).value
                         + ListSection(signal.keyEvents, EventsHeading).value
                         + ListSection(signal.exitConditions, ConditionsHeading).value;
            && Render(signal, symbol, name).value == front + RecommendationSection(signal)
            && front != []
            && (forall l :: l in front ==> !l.RecommendationText?)
  {
    var a := Opening(signal, symbol, name) + StopSection(signal).value;
    var b := a + TargetSection(signal).value;
    var c := b + ListSection(signal.keyEvents, EventsHeading).value;
    NoRecommendationIn(Opening(signal, symbol, name), StopSection(signal).value);
    NoRecommendationIn(a, TargetSection(signal).value);
    NoRecommendationIn(b, ListSection(signal.keyEvents, EventsHeading).value);
    NoRecommendationIn(c, ListSection(signal.exitConditions, ConditionsHeading).value);
  }

  lemma NoRecommendationIn(a: seq<Line>, b: seq<Line>)
    requires forall l :: l in a ==> !l.RecommendationText?
    requires forall l :: l in b ==> !l.RecommendationText?
    ensures forall l :: l in a + b ==> !l.RecommendationText?
  {
  }
}
