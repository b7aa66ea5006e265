/** The shared helpers of `scripts/gemini_utils.py`: the structured decision
    record, markdown fence stripping, JSON recovery from free text, price
    scraping, the language instruction and the two retry loops around the
    text-generation backend. */
module GeminiUtils {
  import opened Wrappers
  import opened JsonValue
  import opened Text

  // ---------------------------------------------------------------------------
  // The structured decision record (`TradeDecisionSchema` and its parts)

  datatype SupportResistanceZone = SupportResistanceZone(levelUsd: real, description: string)

  datatype KnockoutStrategy = KnockoutStrategy(koLevelUsd: real, distancePct: real, risk: string)

  datatype Strategies = Strategies(
    conservative: KnockoutStrategy,
    moderate: KnockoutStrategy,
    aggressive: KnockoutStrategy)

  datatype Timeframes = Timeframes(shortTerm: string, mediumTerm: string, longTerm: string)

  datatype TradeDecision = TradeDecision(
    signal: string,
    confidence: real,
    unableToAssess: bool,
    priceUsd: real,
    priceEur: real,
    strategies: Strategies,
    supportZones: seq<SupportResistanceZone>,
    resistanceZones: seq<SupportResistanceZone>,
    detailedAnalysis: string,
    timeframes: Timeframes)

  function ZoneToJson(z: SupportResistanceZone): Json
  {
    JObj(map["level_usd" := JNum(z.levelUsd), "description" := JStr(z.description)])
  }

  function ZonesToJson(zs: seq<SupportResistanceZone>): (r: seq<Json>)
    ensures |r| == |zs|
  {
    if zs == [] then [] else [ZoneToJson(zs[0])] + ZonesToJson(zs[1..])
  }

  function StrategyToJson(k: KnockoutStrategy): Json
  {
    JObj(map["ko_level_usd" := JNum(k.koLevelUsd), "distance_pct" := JNum(k.distancePct),
             "risk" := JStr(k.risk)])
  }

  function StrategiesToJson(s: Strategies): Json
  {
    JObj(map["conservative" := StrategyToJson(s.conservative), "moderate" := StrategyToJson(s.moderate),
             "aggressive" := StrategyToJson(s.aggressive)])
  }

  function TimeframesToJson(t: Timeframes): Json
  {
    JObj(map["short_term" := JStr(t.shortTerm), "medium_term" := JStr(t.mediumTerm),
             "long_term" := JStr(t.longTerm)])
  }

  /** The dict a decision record serialises to, keyed by the schema's field names. */
  function DecisionToJson(d: TradeDecision): Json
  {
    JObj(map[
      "signal" := JStr(d.signal),
      "confidence" := JNum(d.confidence),
      "unable_to_assess" := JBool(d.unableToAssess),
      "price_usd" := JNum(d.priceUsd),
      "price_eur" := JNum(d.priceEur),
      "strategies" := StrategiesToJson(d.strategies),
      "support_zones" := JArr(ZonesToJson(d.supportZones)),
      "resistance_zones" := JArr(ZonesToJson(d.resistanceZones)),
      "detailed_analysis" := JStr(d.detailedAnalysis),
      "timeframes" := TimeframesToJson(d.timeframes)])
  }

  function NumField(m: map<string, Json>, k: string): Option<real>
  {
    if k in m && m[k].JNum? then Some(m[k].n) else None
  }

  function StrField(m: map<string, Json>, k: string): Option<string>
  {
    if k in m && m[k].JStr? then Some(m[k].s) else None
  }

  function ZoneOf(j: Json): Option<SupportResistanceZone>
  {
    if !j.JObj? then None
    else
      var level := NumField(j.fields, "level_usd");
      var desc := StrField(j.fields, "description");
      if level.Some? && desc.Some? then Some(SupportResistanceZone(level.value, desc.value)) else None
  }

  function ZonesOf(items: seq<Json>): (r: Option<seq<SupportResistanceZone>>)
    ensures r.Some? ==> |r.value| == |items|
  {
    if items == [] then Some([])
    else
      var head := ZoneOf(items[0]);
      var tail := ZonesOf(items[1..]);
      if head.Some? && tail.Some? then Some([head.value] + tail.value) else None
  }

  function StrategyOf(j: Json): Option<KnockoutStrategy>
  {
    if !j.JObj? then None
    else
      var ko := NumField(j.fields, "ko_level_usd");
      var dist := NumField(j.fields, "distance_pct");
      var risk := StrField(j.fields, "risk");
      if ko.Some? && dist.Some? && risk.Some? then Some(KnockoutStrategy(ko.value, dist.value, risk.value))
      else None
  }

  function StrategiesOf(j: Json): Option<Strategies>
  {
    if !j.JObj? then None
    else if !("conservative" in j.fields && "moderate" in j.fields && "aggressive" in j.fields) then None
    else
      var c := StrategyOf(j.fields["conservative"]);
      var m := StrategyOf(j.fields["moderate"]);
      var a := StrategyOf(j.fields["aggressive"]);
      if c.Some? && m.Some? && a.Some? then Some(Strategies(c.value, m.value, a.value)) else None
  }

  function TimeframesOf(j: Json): Option<Timeframes>
  {
    if !j.JObj? then None
    else
      var s := StrField(j.fields, "short_term");
      var m := StrField(j.fields, "medium_term");
      var l := StrField(j.fields, "long_term");
      if s.Some? && m.Some? && l.Some? then Some(Timeframes(s.value, m.value, l.value)) else None
  }

  /** Reads a decoded dict as a decision record of the schema's shape. Every
      field is required except `unable_to_assess`, which defaults to false;
      keys the schema does not name are ignored. */
  function DecisionOf(j: Json): Option<TradeDecision>
  {
    if !j.JObj? then None
    else
      var m := j.fields;
      var signal := StrField(m, "signal");
      var conf := NumField(m, "confidence");
      var unable := FlagField(m, "unable_to_assess");
      var usd := NumField(m, "price_usd");
      var eur := NumField(m, "price_eur");
      var strategies := if "strategies" in m then StrategiesOf(m["strategies"]) else None;
      var support := ZoneListField(m, "support_zones");
      var resistance := ZoneListField(m, "resistance_zones");
      var analysis := StrField(m, "detailed_analysis");
      var frames := if "timeframes" in m then TimeframesOf(m["timeframes"]) else None;
      if signal.Some? && conf.Some? && unable.Some? && usd.Some? && eur.Some? && strategies.Some?
         && support.Some? && resistance.Some? && analysis.Some? && frames.Some?
      then Some(TradeDecision(signal.value, conf.value, unable.value, usd.value, eur.value, strategies.value,
                              support.value, resistance.value, analysis.value, frames.value))
      else None
  }

  /** A boolean field that defaults to false when absent. */
  function FlagField(m: map<string, Json>, k: string): Option<bool>
  {
    if k !in m then Some(false) else if m[k].JBool? then Some(m[k].b) else None
  }

  function ZoneListField(m: map<string, Json>, k: string): Option<seq<SupportResistanceZone>>
  {
    if k in m && m[k].JArr? then ZonesOf(m[k].items) else None
  }

  lemma {:induction false} ZonesRoundTrip(zs: seq<SupportResistanceZone>)
    ensures ZonesOf(ZonesToJson(zs)) == Some(zs)
  {
    if zs != [] {
      ZonesRoundTrip(zs[1..]);
      assert ZonesToJson(zs)[1..] == ZonesToJson(zs[1..]);
      assert [zs[0]] + zs[1..] == zs;
    }
  }

  lemma StrategiesRoundTrip(s: Strategies)
    ensures StrategiesOf(StrategiesToJson(s)) == Some(s)
  {
    var m := StrategiesToJson(s).fields;
    assert m["conservative"] == StrategyToJson(s.conservative);
    assert m["moderate"] == StrategyToJson(s.moderate);
    assert m["aggressive"] == StrategyToJson(s.aggressive);
    StrategyRoundTrip(s.conservative);
    StrategyRoundTrip(s.moderate);
    StrategyRoundTrip(s.aggressive);
  }

  lemma StrategyRoundTrip(s: KnockoutStrategy)
    ensures StrategyOf(StrategyToJson(s)) == Some(s)
  {
  }

  /** The fields of a serialised record, each read back. */
  lemma DecisionFieldsRoundTrip(d: TradeDecision, m: map<string, Json>)
    requires m == DecisionToJson(d).fields
    ensures StrField(m, "signal") == Some(d.signal)
    ensures NumField(m, "confidence") == Some(d.confidence)
    ensures NumField(m, "price_usd") == Some(d.priceUsd)
    ensures NumField(m, "price_eur") == Some(d.priceEur)
    ensures "strategies" in m && StrategiesOf(m["strategies"]) == Some(d.strategies)
    ensures ZoneListField(m, "support_zones") == Some(d.supportZones)
    ensures ZoneListField(m, "resistance_zones") == Some(d.resistanceZones)
    ensures StrField(m, "detailed_analysis") == Some(d.detailedAnalysis)
    ensures "timeframes" in m && TimeframesOf(m["timeframes"]) == Some(d.timeframes)
  {
    DecisionScalarFields(d, m);
    DecisionTextFields(d, m);
    DecisionNestedFields(d, m);
    DecisionZoneFields(d, m);
  }

  lemma DecisionScalarFields(d: TradeDecision, m: map<string, Json>)
    requires m == DecisionToJson(d).fields
    ensures NumField(m, "confidence") == Some(d.confidence)
    ensures NumField(m, "price_usd") == Some(d.priceUsd)
    ensures NumField(m, "price_eur") == Some(d.priceEur)
  {
    assert m["confidence"] == JNum(d.confidence);
    assert m["price_usd"] == JNum(d.priceUsd);
    assert m["price_eur"] == JNum(d.priceEur);
  }

  lemma DecisionTextFields(d: TradeDecision, m: map<string, Json>)
    requires m == DecisionToJson(d).fields
    ensures StrField(m, "signal") == Some(d.signal)
    ensures StrField(m, "detailed_analysis") == Some(d.detailedAnalysis)
  {
    assert m["signal"] == JStr(d.signal);
    assert m["detailed_analysis"] == JStr(d.detailedAnalysis);
  }

  lemma DecisionNestedFields(d: TradeDecision, m: map<string, Json>)
    requires m == DecisionToJson(d).fields
    ensures "strategies" in m && StrategiesOf(m["strategies"]) == Some(d.strategies)
    ensures "timeframes" in m && TimeframesOf(m["timeframes"]) == Some(d.timeframes)
  {
    assert m["strategies"] == StrategiesToJson(d.strategies);
    assert m["timeframes"] == TimeframesToJson(d.timeframes);
    StrategiesRoundTrip(d.strategies);
  }

  lemma DecisionZoneFields(d: TradeDecision, m: map<string, Json>)
    requires m == DecisionToJson(d).fields
    ensures ZoneListField(m, "support_zones") == Some(d.supportZones)
    ensures ZoneListField(m, "resistance_zones") == Some(d.resistanceZones)
  {
    assert m["support_zones"] == JArr(ZonesToJson(d.supportZones));
    assert m["resistance_zones"] == JArr(ZonesToJson(d.resistanceZones));
    ZonesRoundTrip(d.supportZones);
    ZonesRoundTrip(d.resistanceZones);
  }

  /** Reading back the dict a decision record serialises to gives the record. */
  lemma DecisionRoundTrip(d: TradeDecision)
    ensures DecisionOf(DecisionToJson(d)) == Some(d)
  {
    var m := DecisionToJson(d).fields;
    assert m["unable_to_assess"] == JBool(d.unableToAssess);
    DecisionFieldsRoundTrip(d, m);
    DecisionOfFields(d, m, d.unableToAssess);
  }

  /** A dict with every schema field but `unable_to_assess` reads as a record
      whose `unable_to_assess` is false. */
  lemma DecisionDefaultsAssessable(d: TradeDecision)
    ensures DecisionOf(JObj(DecisionToJson(d).fields - {"unable_to_assess"}))
            == Some(d.(unableToAssess := false))
  {
    var full := DecisionToJson(d).fields;
    DecisionFieldsRoundTrip(d, full);
    DropFlagKeepsFields(d, full, full - {"unable_to_assess"});
    DecisionOfFields(d, full - {"unable_to_assess"}, false);
  }

  lemma DropFlagKeepsFields(d: TradeDecision, full: map<string, Json>, m: map<string, Json>)
    requires m == full - {"unable_to_assess"}
    requires StrField(full, "signal") == Some(d.signal)
    requires NumField(full, "confidence") == Some(d.confidence)
    requires NumField(full, "price_usd") == Some(d.priceUsd)
    requires NumField(full, "price_eur") == Some(d.priceEur)
    requires "strategies" in full && StrategiesOf(full["strategies"]) == Some(d.strategies)
    requires ZoneListField(full, "support_zones") == Some(d.supportZones)
    requires ZoneListField(full, "resistance_zones") == Some(d.resistanceZones)
    requires StrField(full, "detailed_analysis") == Some(d.detailedAnalysis)
    requires "timeframes" in full && TimeframesOf(full["timeframes"]) == Some(d.timeframes)
    ensures FlagField(m, "unable_to_assess") == Some(false)
    ensures StrField(m, "signal") == Some(d.signal)
    ensures NumField(m, "confidence") == Some(d.confidence)
    ensures NumField(m, "price_usd") == Some(d.priceUsd)
    ensures NumField(m, "price_eur") == Some(d.priceEur)
    ensures "strategies" in m && StrategiesOf(m["strategies"]) == Some(d.strategies)
    ensures ZoneListField(m, "support_zones") == Some(d.supportZones)
    ensures ZoneListField(m, "resistance_zones") == Some(d.resistanceZones)
    ensures StrField(m, "detailed_analysis") == Some(d.detailedAnalysis)
    ensures "timeframes" in m && TimeframesOf(m["timeframes"]) == Some(d.timeframes)
  {
  }

  lemma DecisionOfFields(d: TradeDecision, m: map<string, Json>, unable: bool)
    requires StrField(m, "signal") == Some(d.signal)
    requires NumField(m, "confidence") == Some(d.confidence)
    requires FlagField(m, "unable_to_assess") == Some(unable)
    requires NumField(m, "price_usd") == Some(d.priceUsd)
    requires NumField(m, "price_eur") == Some(d.priceEur)
    requires "strategies" in m && StrategiesOf(m["strategies"]) == Some(d.strategies)
    requires ZoneListField(m, "support_zones") == Some(d.supportZones)
    requires ZoneListField(m, "resistance_zones") == Some(d.resistanceZones)
    requires StrField(m, "detailed_analysis") == Some(d.detailedAnalysis)
    requires "timeframes" in m && TimeframesOf(m["timeframes"]) == Some(d.timeframes)
    ensures DecisionOf(JObj(m)) == Some(d.(unableToAssess := unable))
  {
  }

  // ---------------------------------------------------------------------------
  // strip_markdown_code_block

  /** One leading `"json"` language tag removed. */
  function DropJsonTag(s: string): (r: string)
    ensures r == s || (StartsWith(s, "json") && r == s[4..])
  {
    if StartsWith(s, "json") then s[4..] else s
  }

  /** `strip_markdown_code_block`: trim; when the text opens a fence, keep the
      trimmed first fenced section without a `json` tag; then drop one trailing
      fence and trim again. */
  function StripMarkdownCodeBlock(text: string): string
  {
    var t := Strip(text);
    var t1 := if StartsWith(t, "```") then
                var parts := Split(t, "```");
                if |parts| >= 2 then Strip(DropJsonTag(parts[1])) else t
              else t;
    if EndsWith(t1, "```") then Strip(t1[..|t1| - 3]) else t1
  }

  /** Text with no backtick comes back only whitespace-trimmed. */
  lemma StripWithoutBackticks(text: string)
    requires '`' !in text
    ensures StripMarkdownCodeBlock(text) == Strip(text)
  {
    var t := Strip(text);
    StripKeepsChars(text, '`');
    assert !StartsWith(t, "```");
    assert !EndsWith(t, "```");
  }

  /** When the trimmed text opens a fence, the result is the trimmed first
      fenced section with one `json` tag removed, and no fence is left in it. */
  lemma StripFencedSection(text: string)
    requires StartsWith(Strip(text), "```")
    ensures |Split(Strip(text), "```")| >= 2
    ensures StripMarkdownCodeBlock(text) == Strip(DropJsonTag(Split(Strip(text), "```")[1]))
    ensures !Contains(StripMarkdownCodeBlock(text), "```")
  {
    var t := Strip(text);
    SplitAfterLeadingSep(t, "```");
    var parts := Split(t, "```");
    SplitPiecesFree(t, "```", 1);
    var q := DropJsonTag(parts[1]);
    DropJsonTagNotContains(parts[1], "```");
    var t1 := Strip(q);
    StripNotContains(q, "```");
    assert !EndsWith(t1, "```") by {
      if EndsWith(t1, "```") { EndsWithContains(t1, "```"); }
    }
  }

  /** A fenced `json` block comes back as its trimmed body, for any body
      that holds no fence and does not end in a backtick. */
  lemma FenceRoundTrip(body: string)
    requires !Contains(body, "```")
    requires body == [] || body[|body| - 1] != '`'
    ensures StripMarkdownCodeBlock("```json" + body + "```") == Strip(body)
  {
    var s := "```json" + body + "```";
    FencedSection(body, s);
    StripFencedSection(s);
    assert DropJsonTag("json" + body) == body by {
      assert ("json" + body)[..4] == "json";
    }
  }

  /** The first fenced section of a fenced `json` block is the tag and the body. */
  lemma FencedSection(body: string, s: string)
    requires !Contains(body, "```")
    requires body == [] || body[|body| - 1] != '`'
    requires s == "```json" + body + "```"
    ensures Strip(s) == s && StartsWith(s, "```")
    ensures |Split(s, "```")| >= 2 && Split(s, "```")[1] == "json" + body
  {
    FenceEnds(body, s);
    StripNoSpaceAround(s);
    SplitAfterLeadingSep(s, "```");
    var x := s[3..];
    FenceRest(body, s, x);
    ClosingFence(body, x);
    FenceRestPrefix(body, x);
  }

  lemma FenceEnds(body: string, s: string)
    requires s == "```json" + body + "```"
    ensures s[0] == '`' && s[|s| - 1] == '`' && StartsWith(s, "```")
  {
    assert s[..3] == "```";
  }

  lemma FenceRest(body: string, s: string, x: string)
    requires s == "```json" + body + "```" && x == s[3..]
    ensures x == "json" + body + "```"
  {
  }

  lemma FenceRestPrefix(body: string, x: string)
    requires x == "json" + body + "```"
    ensures x[..4 + |body|] == "json" + body
  {
  }

  lemma ClosingFence(body: string, x: string)
    requires !Contains(body, "```")
    requires body == [] || body[|body| - 1] != '`'
    requires x == "json" + body + "```"
    ensures Find(x, "```") == 4 + |body|
  {
    var k := 4 + |body|;
    forall j | 0 <= j < k
      ensures !OccursAt(x, "```", j)
    {
      NoEarlierFence(body, x, j);
    }
    FenceAtEnd(body, x);
    var r := Find(x, "```");
  }

  lemma FenceAtEnd(body: string, x: string)
    requires x == "json" + body + "```"
    ensures OccursAt(x, "```", 4 + |body|)
  {
    assert x[4 + |body|..] == "```";
  }

  lemma NoEarlierFence(body: string, x: string, j: nat)
    requires !Contains(body, "```")
    requires body == [] || body[|body| - 1] != '`'
    requires x == "json" + body + "```"
    requires j < 4 + |body|
    ensures !OccursAt(x, "```", j)
  {
    var k := 4 + |body|;
    if j < 4 {
      assert x[j] == "json"[j];
      NoFenceAtChar(x, j, j);
    } else if j + 3 <= k {
      assert Find(body, "```") == -1;
      assert !OccursAt(body, "```", j - 4);
      assert x[j..j + 3] == body[j - 4..j - 1];
    } else {
      assert x[k - 1] == body[|body| - 1];
      NoFenceAtChar(x, j, k - 1);
    }
  }

  /** No fence starts at `j` when one of its three places holds another character. */
  lemma NoFenceAtChar(x: string, j: nat, i: nat)
    requires j <= i < j + 3 && i < |x| && x[i] != '`'
    ensures !OccursAt(x, "```", j)
  {
    if j + 3 <= |x| {
      assert x[j..j + 3][i - j] == x[i];
    }
  }

  lemma DropJsonTagNotContains(p: string, pat: string)
    requires !Contains(p, pat)
    ensures !Contains(DropJsonTag(p), pat)
  {
    if StartsWith(p, "json") {
      NotContainsSlice(p, pat, 4, |p|);
      assert DropJsonTag(p) == p[4..|p|];
    }
  }

  lemma StripFenceExample(text: string)
    requires text == "```json\n{\"test\": 1}\n```"
    ensures StripMarkdownCodeBlock(text) == "{\"test\": 1}"
  {
    var body := "\n{\"test\": 1}\n";
    assert text == "```json" + body + "```";
    assert '`' !in body;
    NoFirstCharNotContains(body, "```");
    FenceRoundTrip(body);
    FenceExampleBody(body);
  }

  lemma FenceExampleBody(body: string)
    requires body == "\n{\"test\": 1}\n"
    ensures Strip(body) == "{\"test\": 1}"
  {
    var inner := body[1..];
    assert LStrip(inner) == inner;
    assert LStrip(body) == inner;
    assert inner[..|inner| - 1] == "{\"test\": 1}";
    assert RStrip(inner[..|inner| - 1]) == inner[..|inner| - 1];
    assert RStrip(inner) == inner[..|inner| - 1];
  }

  // ---------------------------------------------------------------------------
  // parse_json_response

  /** `_try_parse`: the decoded value when it is a dict. */
  function TryParseDict(decode: string -> Option<Json>, t: string): (r: Option<map<string, Json>>)
    ensures r.Some? <==> decode(t).Some? && decode(t).value.JObj?
    ensures r.Some? ==> decode(t) == Some(JObj(r.value))
  {
    match decode(t)
    case Some(JObj(m)) => Some(m)
    case _ => None
  }

  /** `t[t.find('{') : t.rfind('}') + 1]` when the last `}` lies after the first `{`. */
  function BraceSpan(t: string): (r: Option<string>)
    ensures r.None? <==> forall i, j :: 0 <= i < j < |t| && t[i] == '{' ==> t[j] != '}'
    ensures r.Some? ==> |r.value| >= 2 && r.value[0] == '{' && r.value[|r.value| - 1] == '}'
    ensures r.Some? ==> exists a :: 0 <= a < |t| && t[a] == '{' && a + |r.value| <= |t|
                          && r.value == t[a..a + |r.value|]
                          && (forall i :: 0 <= i < a ==> t[i] != '{')
                          && (forall i :: a + |r.value| <= i < |t| ==> t[i] != '}')
  {
    var start := FindChar(t, '{');
    var end := RFindChar(t, '}');
    if start != -1 && end != -1 && end > start then
      assert t[start..end + 1][end - start] == t[end];
      assert 0 <= start < end < |t| && t[start] == '{' && t[end] == '}';
      var v := t[start..end + 1];
      assert start + |v| == end + 1;
      assert 0 <= start < |t| && t[start] == '{' && start + |v| <= |t| && v == t[start..start + |v|]
             && (forall i :: 0 <= i < start ==> t[i] != '{')
             && (forall i :: start + |v| <= i < |t| ==> t[i] != '}');
      Some(v)
    else
      assert forall i, j :: 0 <= i < j < |t| && t[i] == '{' ==> t[j] != '}' by {
        forall i, j | 0 <= i < j < |t| && t[i] == '{' ensures t[j] != '}' {
          if start != -1 && end != -1 { assert start <= i && end <= start; }
        }
      }
      None
  }

  /** `parse_json_response`: the stripped text decoded whole, else its brace
      span; only a non-empty dict is accepted. */
  function ParseJsonResponse(decode: string -> Option<Json>, text: string): (r: Option<map<string, Json>>)
    ensures text == "" ==> r.None?
    ensures r.Some? ==> r.value != map[]
    ensures var t := StripMarkdownCodeBlock(text);
            text != "" && TryParseDict(decode, t).Some? && TryParseDict(decode, t).value != map[]
            ==> r == TryParseDict(decode, t)
    ensures var t := StripMarkdownCodeBlock(text);
            r.Some? ==> decode(t) == Some(JObj(r.value))
                        || (BraceSpan(t).Some? && decode(BraceSpan(t).value) == Some(JObj(r.value)))
    ensures var t := StripMarkdownCodeBlock(text);
            r.None? && text != "" ==>
              (TryParseDict(decode, t).None? || TryParseDict(decode, t).value == map[])
              && (BraceSpan(t).None? || TryParseDict(decode, BraceSpan(t).value).None?
                  || TryParseDict(decode, BraceSpan(t).value).value == map[])
  {
    if text == "" then None
    else
      var t := StripMarkdownCodeBlock(text);
      var direct := TryParseDict(decode, t);
      if direct.Some? && direct.value != map[] then direct
      else
        var span := BraceSpan(t);
        if span.None? then None
        else
          var inner := TryParseDict(decode, span.value);
          if inner.Some? && inner.value != map[] then inner else None
  }

  // ---------------------------------------------------------------------------
  // extract_price_from_text: the first match of `\$?([\d,]+\.?\d*)`

  predicate IsPriceChar(c: char) { IsDigit(c) || c == ',' }

  /** Index of the first digit or comma, or -1. */
  function FirstPriceChar(s: string): (r: int)
    ensures -1 <= r < |s|
    ensures r >= 0 ==> IsPriceChar(s[r]) && forall j :: 0 <= j < r ==> !IsPriceChar(s[j])
    ensures r == -1 ==> forall j :: 0 <= j < |s| ==> !IsPriceChar(s[j])
  {
    if |s| == 0 then -1
    else if IsPriceChar(s[0]) then 0
    else
      var k := FirstPriceChar(s[1..]);
      if k == -1 then -1 else k + 1
  }

  /** End of the maximal run of digits and commas starting at `i`. */
  function PriceRunEnd(s: string, i: nat): (e: nat)
    requires i <= |s|
    ensures i <= e <= |s|
    ensures forall k :: i <= k < e ==> IsPriceChar(s[k])
    ensures e < |s| ==> !IsPriceChar(s[e])
    decreases |s| - i
  {
    if i < |s| && IsPriceChar(s[i]) then PriceRunEnd(s, i + 1) else i
  }

  /** End of the maximal run of digits starting at `i`. */
  function DigitRunEnd(s: string, i: nat): (e: nat)
    requires i <= |s|
    ensures i <= e <= |s|
    ensures forall k :: i <= k < e ==> IsDigit(s[k])
    ensures e < |s| ==> !IsDigit(s[e])
    decreases |s| - i
  {
    if i < |s| && IsDigit(s[i]) then DigitRunEnd(s, i + 1) else i
  }

  /** The captured group, split at its optional decimal point. */
  datatype PriceCapture = PriceCapture(whole: string, hasPoint: bool, fraction: string)

  /** The group of the leftmost match. The optional `$` never moves the group:
      a match starting at `$` has its group at the next character, which is
      then the first digit or comma of the text. Greedy repetition needs no
      backtracking because the tail `\.?\d*` always matches. */
  function PriceGroup(s: string): (r: Option<PriceCapture>)
    ensures r.None? <==> forall j :: 0 <= j < |s| ==> !IsPriceChar(s[j])
    ensures r.Some? ==> r.value.whole != [] && (forall c :: c in r.value.whole ==> IsPriceChar(c))
    ensures r.Some? ==> forall c :: c in r.value.fraction ==> IsDigit(c)
    ensures r.Some? && !r.value.hasPoint ==> r.value.fraction == []
  {
    var q := FirstPriceChar(s);
    if q < 0 then None
    else
      var e1 := PriceRunEnd(s, q);
      if e1 < |s| && s[e1] == '.' then
        var e2 := DigitRunEnd(s, e1 + 1);
        Some(PriceCapture(s[q..e1], true, s[e1 + 1..e2]))
      else
        Some(PriceCapture(s[q..e1], false, ""))
  }

  /** `s.replace(",", "")`. */
  function RemoveCommas(s: string): (r: string)
    ensures ',' !in r
    ensures forall c :: c in r ==> c in s
  {
    if s == [] then [] else (if s[0] == ',' then [] else [s[0]]) + RemoveCommas(s[1..])
  }

  /** The value of a string of decimal digits. */
  function DigitsValue(ds: string): nat
    requires forall c :: c in ds ==> IsDigit(c)
  {
    if ds == [] then 0 else 10 * DigitsValue(ds[..|ds| - 1]) + DigitValue(ds[|ds| - 1])
  }

  function Pow10(n: nat): (p: nat)
    ensures p >= 1
  {
    if n == 0 then 1 else 10 * Pow10(n - 1)
  }

  /** `float(ds1 + "." + ds2)` (or `float(ds1)`) for digit strings: the exact
      decimal value; `float` rejects it when there is no digit at all. */
  function DecimalOf(whole: string, fraction: string): (r: Option<real>)
    requires forall c :: c in whole ==> IsDigit(c)
    requires forall c :: c in fraction ==> IsDigit(c)
    ensures r.None? <==> whole == [] && fraction == []
    ensures r.Some? ==> r.value >= 0.0
  {
    if whole == [] && fraction == [] then None
    else Some(DigitsValue(whole) as real + DigitsValue(fraction) as real / Pow10(|fraction|) as real)
  }

  /** A decimal without a fraction part is its whole digits' value. */
  lemma WholeDecimal(whole: string)
    requires whole != [] && forall c :: c in whole ==> IsDigit(c)
    ensures DecimalOf(whole, "") == Some(DigitsValue(whole) as real)
  {
    assert DigitsValue("") == 0 && Pow10(0) == 1;
  }

  /** `extract_price_from_text`: Ok(None) when there is no match,
      Err(ValueError) when `float` rejects the comma-free group. */
  function ExtractPriceFromText(text: string): (r: Result<Option<real>, PyError>)
    ensures r == Ok(None) <==> forall j :: 0 <= j < |text| ==> !IsPriceChar(text[j])
    ensures r.Err? <==> PriceGroup(text).Some? && RemoveCommas(PriceGroup(text).value.whole) == []
                        && PriceGroup(text).value.fraction == []
    ensures r.Err? ==> r.error == ValueError
    ensures r.Ok? && r.value.Some? ==>
              r.value == DecimalOf(RemoveCommas(PriceGroup(text).value.whole), PriceGroup(text).value.fraction)
  {
    if text == "" then Ok(None)
    else
      match PriceGroup(text)
      case None => Ok(None)
      case Some(g) =>
        match DecimalOf(RemoveCommas(g.whole), g.fraction)
        case None => Err(ValueError)
        case Some(v) => Ok(Some(v))
  }

  lemma {:induction false} DigitsValueOfNat(n: nat)
    ensures DigitsValue(NatToString(n)) == n
  {
    if n >= 10 {
      DigitsValueOfNat(n / 10);
      var s := NatToString(n);
      assert s[..|s| - 1] == NatToString(n / 10);
      assert DigitValue(s[|s| - 1]) == n % 10;
    }
  }

  lemma {:induction false} RemoveCommasDigits(s: string)
    requires forall c :: c in s ==> IsDigit(c)
    ensures RemoveCommas(s) == s
  {
    if s != [] {
      assert s[0] in s;
      assert forall c :: c in s[1..] ==> c in s;
      RemoveCommasDigits(s[1..]);
      assert [s[0]] + s[1..] == s;
    }
  }

  /** A plain dollar amount holds no dict, so nothing is parsed from it when
      the decoder rejects it. */
  lemma DollarTextNotJson(decode: string -> Option<Json>, n: nat)
    requires decode("$" + NatToString(n)).None?
    ensures ParseJsonResponse(decode, "$" + NatToString(n)).None?
  {
    var t := "$" + NatToString(n);
    DollarTextChars(n);
    StripWithoutBackticks(t);
    StripNoSpaceAround(t);
    assert StripMarkdownCodeBlock(t) == t;
    NoBraceNoSpan(t);
    NothingToParse(decode, t);
  }

  /** Text without `{` has no brace span. */
  lemma NoBraceNoSpan(t: string)
    requires '{' !in t
    ensures BraceSpan(t).None?
  {
    assert forall i :: 0 <= i < |t| ==> t[i] in t;
  }

  /** A reply whose cleaned text neither decodes to a dict nor has a brace
      span yields no dict. */
  lemma NothingToParse(decode: string -> Option<Json>, text: string)
    requires TryParseDict(decode, StripMarkdownCodeBlock(text)).None?
    requires BraceSpan(StripMarkdownCodeBlock(text)).None?
    ensures ParseJsonResponse(decode, text).None?
  {
  }

  /** The characters of a dollar amount: no backtick, no brace, and a digit
      at the end. */
  lemma DollarTextChars(n: nat)
    ensures var t := "$" + NatToString(n);
            '`' !in t && '{' !in t && IsDigit(t[|t| - 1])
  {
    var t := "$" + NatToString(n);
    assert forall c :: c in NatToString(n) ==> IsDigit(c);
    assert t[|t| - 1] in NatToString(n);
  }

  /** A dollar amount written in whole units is scraped back exactly. */
  lemma PriceOfDollarAmount(n: nat)
    ensures ExtractPriceFromText("$" + NatToString(n)) == Ok(Some(n as real))
  {
    var ds := NatToString(n);
    PriceGroupOfDollarAmount(ds);
    RemoveCommasDigits(ds);
    DigitsValueOfNat(n);
    assert DecimalOf(ds, "") == Some(n as real);
  }

  lemma PriceGroupOfDollarAmount(ds: string)
    requires ds != [] && forall c :: c in ds ==> IsDigit(c)
    ensures PriceGroup("$" + ds) == Some(PriceCapture(ds, false, ""))
  {
    var s := "$" + ds;
    assert s[1] == ds[0] && ds[0] in ds;
    assert FirstPriceChar(s) == 1;
    assert forall k :: 1 <= k < |s| ==> IsPriceChar(s[k]) by {
      forall k | 1 <= k < |s| ensures IsPriceChar(s[k]) {
        assert s[k] == ds[k - 1];
        assert ds[k - 1] in ds;
      }
    }
    assert PriceRunEnd(s, 1) == |s|;
    assert s[1..|s|] == ds;
  }

  lemma PriceExampleThousands(s: string)
    requires s == "$1,234.56"
    ensures ExtractPriceFromText(s) == Ok(Some(1234.56))
  {
    PriceGroupThousands(s);
    CommasThousands();
    DigitsThousands();
    ExtractOfGroup(s, PriceCapture("1,234", true, "56"), 1234.56);
  }

  /** A group whose comma-free digits have a decimal value yields that value. */
  lemma ExtractOfGroup(text: string, g: PriceCapture, v: real)
    requires text != [] && PriceGroup(text) == Some(g)
    requires DecimalOf(RemoveCommas(g.whole), g.fraction) == Some(v)
    ensures ExtractPriceFromText(text) == Ok(Some(v))
  {
  }

  lemma CommasThousands()
    ensures RemoveCommas("1,234") == "1234"
  {
    CommaJoined("1", "234");
    assert "1" + "," + "234" == "1,234";
    assert "1" + "234" == "1234";
  }

  /** Dropping the one comma between two digit groups joins them. */
  lemma CommaJoined(a: string, b: string)
    requires forall c :: c in a ==> IsDigit(c)
    requires forall c :: c in b ==> IsDigit(c)
    ensures RemoveCommas(a + "," + b) == a + b
  {
    var comma := ",";
    assert RemoveCommas(comma) == [];
    RemoveCommasDigits(a);
    RemoveCommasConcat(a, comma);
    assert RemoveCommas(a + comma) == a;
    RemoveCommasDigits(b);
    RemoveCommasConcat(a + comma, b);
  }

  lemma {:induction false} RemoveCommasConcat(a: string, b: string)
    ensures RemoveCommas(a + b) == RemoveCommas(a) + RemoveCommas(b)
  {
    if a != [] {
      assert (a + b)[1..] == a[1..] + b;
      RemoveCommasConcat(a[1..], b);
    } else {
      assert a + b == b;
    }
  }

  lemma PriceGroupThousands(s: string)
    requires s == "$1,234.56"
    ensures PriceGroup(s) == Some(PriceCapture("1,234", true, "56"))
  {
    assert FirstPriceChar(s) == 1;
    assert forall k :: 1 <= k < 6 ==> IsPriceChar(s[k]);
    assert !IsPriceChar(s[6]);
    assert PriceRunEnd(s, 1) == 6;
    assert |s| == 9 && IsDigit(s[7]) && IsDigit(s[8]);
    assert DigitRunEnd(s, 7) == 9;
    assert s[1..6] == "1,234" && s[7..9] == "56";
  }

  lemma DigitsThousands()
    ensures DecimalOf("1234", "56") == Some(1234.56)
  {
    assert "1234"[..3] == "123" && "123"[..2] == "12" && "12"[..1] == "1" && "1"[..0] == "";
    assert DigitsValue("1234") == 1234;
    assert "56"[..1] == "5" && "5"[..0] == "";
    assert DigitsValue("56") == 56;
  }

  /** Commas before the first digit, broken off by a space: the group holds no
      digit and `float` raises. */
  lemma PriceExampleCommaOnly(t: string)
    requires t == "Price: , 5"
    ensures ExtractPriceFromText(t) == Err(ValueError)
  {
    PriceGroupCommaOnly(t);
    assert RemoveCommas(",") == "";
  }

  lemma PriceGroupCommaOnly(t: string)
    requires t == "Price: , 5"
    ensures PriceGroup(t) == Some(PriceCapture(",", false, ""))
  {
    assert t[7] == ',' && t[8] == ' ';
    assert forall j :: 0 <= j < 7 ==> !IsPriceChar(t[j]);
    assert FirstPriceChar(t) == 7;
    assert PriceRunEnd(t, 8) == 8;
    assert PriceRunEnd(t, 7) == 8;
    assert t[7..8] == ",";
  }

  // ---------------------------------------------------------------------------
  // get_language_instruction

  /** `get_language_instruction`: German for "de", English for anything else. */
  function LanguageInstruction(lang: string, prefix: string): (r: string)
    ensures StartsWith(r, prefix)
    ensures lang == "de" ==> r == prefix + " entirely in German."
    ensures lang != "de" ==> r == prefix + " entirely in English."
  {
    prefix + (if lang == "de" then " entirely in German." else " entirely in English.")
  }

  /** The two instructions differ, so the language code is recoverable. */
  lemma LanguageInstructionDistinguishes(lang: string, prefix: string)
    ensures EndsWith(LanguageInstruction(lang, prefix), "German.") <==> lang == "de"
  {
    var r := LanguageInstruction(lang, prefix);
    if lang != "de" {
      assert r[|r| - 7..] == "nglish.";
    }
  }

  // ---------------------------------------------------------------------------
  // call_gemini / call_gemini_vision / call_gemini_json

  /** What one backend attempt produced: the reply text ("" for an empty or
      missing reply) or the message of the exception it raised. */
  datatype Reply = Reply(text: string) | Failure(message: string)

  /** How a call ends: with a returned text, or with the last attempt's
      exception propagating. */
  datatype CallOutcome = Returned(text: string) | Raised(message: string)

  /** Some call of a series raised. */
  predicate SomeRaised(calls: seq<CallOutcome>)
  {
    exists k :: 0 <= k < |calls| && calls[k].Raised?
  }

  predicate RateLimited(r: Reply) { r.Failure? && Contains(r.message, "429") }

  /** The attempt produced a non-empty text. */
  predicate Answered(r: Reply) { r.Reply? && r.text != "" }

  /** The outcome a final (or successful) attempt gives. */
  function FinalOutcome(r: Reply): CallOutcome
  {
    match r
    case Reply(t) => Returned(t)
    case Failure(m) => Raised(m)
  }

  /** Seconds `call_gemini` sleeps after a failed non-final attempt `k`. */
  function GeminiWait(r: Reply, k: nat, retryDelay: int): int
  {
    if RateLimited(r) then retryDelay * (k + 1) else 2
  }

  /** The loop of `call_gemini` (and of `call_gemini_vision`, which differs only
      in what it sends). Attempt `k` yields `replies[k]`; `waits` are the
      sleeps in order and `calls` the number of backend calls. */
  method CallGemini(replies: seq<Reply>, maxRetries: nat, retryDelay: int)
    returns (outcome: CallOutcome, waits: seq<int>, calls: nat)
    requires |replies| >= maxRetries
    ensures calls <= maxRetries && (calls == 0 <==> maxRetries == 0)
    ensures forall k :: 0 <= k < calls - 1 ==> !Answered(replies[k])
    ensures 0 < calls < maxRetries ==> Answered(replies[calls - 1])
    ensures calls > 0 ==> outcome == FinalOutcome(replies[calls - 1])
    ensures calls == 0 ==> outcome == Returned("")
    ensures |waits| == if calls == 0 then 0 else calls - 1
    ensures forall k :: 0 <= k < |waits| ==> waits[k] == GeminiWait(replies[k], k, retryDelay)
  {
    outcome := Returned("");
    waits := [];
    calls := 0;
    var attempt := 0;
    while attempt < maxRetries
      invariant attempt <= maxRetries && (maxRetries == 0 || attempt < maxRetries)
      invariant calls == attempt && |waits| == attempt
      invariant forall k :: 0 <= k < attempt ==> !Answered(replies[k])
      invariant forall k :: 0 <= k < attempt ==> waits[k] == GeminiWait(replies[k], k, retryDelay)
    {
      var r := replies[attempt];
      calls := attempt + 1;
      if r.Reply? && r.text != "" {
        outcome := Returned(r.text);
        return;
      }
      if r.Failure? {
        if Contains(r.message, "429") && attempt < maxRetries - 1 {
          waits := waits + [retryDelay * (attempt + 1)];
          attempt := attempt + 1;
          continue;
        }
        if attempt == maxRetries - 1 {
          outcome := Raised(r.message);
          return;
        }
      }
      if attempt < maxRetries - 1 {
        waits := waits + [2];
      } else {
        // the final attempt gave an empty reply: the loop ends and "" is returned
        outcome := Returned("");
        return;
      }
      attempt := attempt + 1;
    }
  }

  /** What `call_gemini_json` makes of one attempt: with a schema the decoded
      reply, whatever its type; without one the non-empty dict
      `parse_json_response` recovers. */
  function JsonAttempt(decode: string -> Option<Json>, schema: bool, r: Reply): (res: Option<Json>)
    ensures r.Failure? || r.text == "" ==> res.None?
    ensures !schema && res.Some? ==> res.value.JObj? && res.value.fields != map[]
  {
    match r
    case Failure(_) => None
    case Reply(t) =>
      if t == "" then None
      else if schema then decode(t)
      else
        match ParseJsonResponse(decode, t)
        case Some(m) => Some(JObj(m))
        case None => None
  }

  /** The sleep after failed attempt `k` of `call_gemini_json`: a 429 waits
      5·(k+1) seconds even after the last attempt, anything else 2 seconds
      unless it was the last attempt. */
  function JsonPause(r: Reply, k: nat, maxRetries: nat): seq<int>
  {
    if RateLimited(r) then [5 * (k + 1)] else if k + 1 < maxRetries then [2] else []
  }

  /** The sleeps after the first `n` (failed) attempts. */
  function JsonPauses(replies: seq<Reply>, n: nat, maxRetries: nat): seq<int>
    requires n <= |replies|
  {
    if n == 0 then [] else JsonPauses(replies, n - 1, maxRetries) + JsonPause(replies[n - 1], n - 1, maxRetries)
  }

  lemma {:induction false} JsonPausesBound(replies: seq<Reply>, n: nat, maxRetries: nat)
    requires n <= |replies|
    ensures |JsonPauses(replies, n, maxRetries)| <= n
    ensures forall w :: w in JsonPauses(replies, n, maxRetries) ==> 2 <= w <= 5 * n
  {
    if n > 0 {
      JsonPausesBound(replies, n - 1, maxRetries);
    }
  }

  /** What each of the first `n` attempts of `call_gemini_json` yields. */
  function JsonAttempts(decode: string -> Option<Json>, schema: bool, replies: seq<Reply>, n: nat)
    : (r: seq<Option<Json>>)
    requires n <= |replies|
    ensures |r| == n
  {
    seq(n, i requires 0 <= i < n => JsonAttempt(decode, schema, replies[i]))
  }

  /** The first present value from index `k` on, or None. */
  function FirstSome<T>(xs: seq<Option<T>>, k: nat): Option<T>
    decreases |xs| - k
  {
    if k >= |xs| then None else if xs[k].Some? then xs[k] else FirstSome(xs, k + 1)
  }

  /** Absent values are passed over. */
  lemma {:induction false} FirstSomeSkips<T>(xs: seq<Option<T>>, k: nat, i: nat)
    requires k <= i <= |xs|
    requires forall j :: k <= j < i ==> xs[j].None?
    ensures FirstSome(xs, k) == FirstSome(xs, i)
    decreases i - k
  {
    if k < i {
      FirstSomeSkips(xs, k + 1, i);
    }
  }

  /** When every value before `i` is absent, the first present value is the
      one at `i` (None when `i` is the end). */
  lemma FirstSomeIs<T>(xs: seq<Option<T>>, i: nat)
    requires i <= |xs| && (i == |xs| || xs[i].Some?)
    requires forall j :: 0 <= j < i ==> xs[j].None?
    ensures FirstSome(xs, 0) == if i == |xs| then None else xs[i]
  {
    FirstSomeSkips(xs, 0, i);
  }

  /** The loop of `call_gemini_json`: no backend error escapes; the result is
      the first successful attempt's value, or None after `maxRetries` failures. */
  method CallGeminiJson(decode: string -> Option<Json>, replies: seq<Reply>, maxRetries: nat, schema: bool)
    returns (result: Option<Json>, waits: seq<int>, calls: nat)
    requires |replies| >= maxRetries
    ensures calls <= maxRetries && (calls == 0 <==> maxRetries == 0)
    ensures result.None? ==> calls == maxRetries
    ensures forall k :: 0 <= k < calls - 1 ==> JsonAttempts(decode, schema, replies, maxRetries)[k].None?
    ensures calls > 0 ==> result == JsonAttempts(decode, schema, replies, maxRetries)[calls - 1]
    ensures calls == 0 ==> result.None?
    ensures waits == JsonPauses(replies, if result.Some? then calls - 1 else calls, maxRetries)
    ensures result.None? && maxRetries > 0 && RateLimited(replies[maxRetries - 1]) ==>
              |waits| > 0 && waits[|waits| - 1] == 5 * maxRetries
  {
    result := None;
    waits := [];
    calls := 0;
    var attempt := 0;
    ghost var outcomes := JsonAttempts(decode, schema, replies, maxRetries);
    while attempt < maxRetries
      invariant attempt <= maxRetries && calls == attempt
      invariant forall k :: 0 <= k < attempt ==> outcomes[k].None?
      invariant waits == JsonPauses(replies, attempt, maxRetries)
    {
      var r := replies[attempt];
      calls := attempt + 1;
      // the body of the `try`: a non-empty reply decoded as the mode demands
      var decoded := Attempt(decode, schema, replies, maxRetries, attempt);
      if decoded.Some? {
        result := decoded;
        return;
      }
      var pause := PauseAfter(r, attempt, maxRetries);
      waits := waits + pause;
      NoneUpTo(outcomes, attempt);
      attempt := attempt + 1;
    }
    if maxRetries > 0 && RateLimited(replies[maxRetries - 1]) {
      LastPause(replies, maxRetries, maxRetries);
    }
  }

  /** One attempt of `call_gemini_json`'s loop. */
  method Attempt(decode: string -> Option<Json>, schema: bool, replies: seq<Reply>, maxRetries: nat, attempt: nat)
    returns (decoded: Option<Json>)
    requires attempt < maxRetries <= |replies|
    ensures decoded == JsonAttempts(decode, schema, replies, maxRetries)[attempt]
  {
    decoded := JsonAttempt(decode, schema, replies[attempt]);
  }

  /** The sleep after a failed attempt. */
  method PauseAfter(r: Reply, attempt: nat, maxRetries: nat) returns (pause: seq<int>)
    ensures pause == JsonPause(r, attempt, maxRetries)
  {
    if RateLimited(r) {
      pause := [5 * (attempt + 1)];
    } else if attempt + 1 < maxRetries {
      pause := [2];
    } else {
      pause := [];
    }
  }

  lemma NoneUpTo(xs: seq<Option<Json>>, n: nat)
    requires n < |xs| && xs[n].None?
    requires forall k :: 0 <= k < n ==> xs[k].None?
    ensures forall k :: 0 <= k < n + 1 ==> xs[k].None?
  {
  }

  /** A 429 on the last attempt leaves its wait at the end of the sleeps. */
  lemma LastPause(replies: seq<Reply>, n: nat, maxRetries: nat)
    requires 0 < n <= |replies| && RateLimited(replies[n - 1])
    ensures |JsonPauses(replies, n, maxRetries)| > 0
    ensures JsonPauses(replies, n, maxRetries)[|JsonPauses(replies, n, maxRetries)| - 1] == 5 * n
  {
  }
}
